/**
 * The generated `Parse*List` functions: check that the value is a list, then
 * parse its elements in order, stopping at the first element that fails.
 * `ParseAll` is that element loop as a function over any element type; the
 * IAM policy codec converts its bindings and members the same way.
 */
module Lists {
  import opened Errors
  import opened Values

  /**
   * The elements parsed in order: the error of the first element that fails,
   * or one result per element (ParseAllCases).
   */
  function ParseAll<A, T>(items: seq<A>, parse: A -> Result<T>): (r: Result<seq<T>>)
    ensures r.Ok? ==> |r.value| == |items|
  {
    if items == [] then Ok([])
    else
      match parse(items[0])
      case Err(e) => Err(e)
      case Ok(x) =>
        match ParseAll(items[1..], parse)
        case Err(e) => Err(e)
        case Ok(xs) => Ok([x] + xs)
  }

  /**
   * ParseAll succeeds exactly when every element parses, with each element's
   * result in its place; otherwise its error is that of the first element
   * that fails.
   */
  lemma {:induction false} ParseAllCases<A, T>(items: seq<A>, parse: A -> Result<T>)
    ensures ParseAll(items, parse).Ok? <==> forall k :: 0 <= k < |items| ==> parse(items[k]).Ok?
    ensures ParseAll(items, parse).Ok? ==> forall k :: 0 <= k < |items| ==> ParseAll(items, parse).value[k] == parse(items[k]).value
    ensures ParseAll(items, parse).Err? ==>
              exists k :: 0 <= k < |items| && parse(items[k]).Err? && ParseAll(items, parse).error == parse(items[k]).error &&
                          forall j :: 0 <= j < k ==> parse(items[j]).Ok?
  {
    if items != [] {
      ParseAllCases(items[1..], parse);
      var r := ParseAll(items, parse);
      if parse(items[0]).Ok? {
        var tail := items[1..];
        assert forall k :: 0 < k < |items| ==> items[k] == tail[k - 1];
        if r.Err? {
          var k :| 0 <= k < |tail| && parse(tail[k]).Err? && r.error == parse(tail[k]).error &&
                   forall j :: 0 <= j < k ==> parse(tail[j]).Ok?;
          assert items[k + 1] == tail[k];
          assert forall j :: 1 <= j < k + 1 ==> parse(items[j]).Ok? by {
            forall j | 1 <= j < k + 1 ensures parse(items[j]).Ok? {
              assert items[j] == tail[j - 1];
            }
          }
        } else {
          forall k | 0 <= k < |items| ensures parse(items[k]).Ok? && r.value[k] == parse(items[k]).value {
            if k > 0 {
              assert items[k] == tail[k - 1];
            }
          }
        }
      } else {
        assert parse(items[0]).Err?;
      }
    }
  }

  /** `Parse*List`: anything but a list is an "invalid type for list" error. */
  method ParseList<T>(v: Value, parse: Value -> Result<T>) returns (r: Result<seq<T>>)
    ensures !v.List? ==> r == Err(InvalidListType)
    ensures v.List? ==> r == ParseAll(v.items, parse)
  {
    if !v.List? {
      return Err(InvalidListType);
    }
    var list := v.items;
    var vals: seq<T> := [];
    var i := 0;
    while i < |list|
      invariant 0 <= i <= |list|
      invariant ParseAll(list[..i], parse) == Ok(vals)
    {
      var p := parse(list[i]);
      ParseAllStep(list, i, parse, vals, p);
      if p.Err? {
        return Err(p.error);
      }
      vals := vals + [p.value];
      i := i + 1;
    }
    assert list[..i] == list;
    return Ok(vals);
  }

  /**
   * When `decode` undoes `encode` on every element, converting a sequence and
   * converting it back gives the sequence again.
   */
  lemma ParseAllInverse<A, B>(xs: seq<A>, encode: A -> Result<B>, decode: B -> Result<A>)
    requires forall k :: 0 <= k < |xs| ==> encode(xs[k]).Ok? && decode(encode(xs[k]).value) == Ok(xs[k])
    ensures ParseAll(xs, encode).Ok?
    ensures ParseAll(ParseAll(xs, encode).value, decode) == Ok(xs)
  {
    ParseAllCases(xs, encode);
    var ys := ParseAll(xs, encode).value;
    ParseAllCases(ys, decode);
    assert forall k :: 0 <= k < |ys| ==> decode(ys[k]) == Ok(xs[k]);
    assert ParseAll(ys, decode).value == xs;
  }

  /**
   * One more element after a good prefix: a failure is the failure of the
   * whole sequence, a success extends the parsed prefix by its result.
   */
  lemma ParseAllStep<A, T>(items: seq<A>, j: nat, parse: A -> Result<T>, done: seq<T>, x: Result<T>)
    requires j < |items| && ParseAll(items[..j], parse) == Ok(done) && x == parse(items[j])
    ensures x.Err? ==> ParseAll(items, parse) == Err(x.error)
    ensures x.Ok? ==> ParseAll(items[..j + 1], parse) == Ok(done + [x.value])
  {
    var pre, next := items[..j], items[..j + 1];
    ParseAllCases(pre, parse);
    if x.Err? {
      forall k | 0 <= k < j
        ensures parse(items[k]).Ok?
      {
        assert items[k] == pre[k];
      }
      FirstFailure(items, parse, j);
    } else {
      ParseAllCases(next, parse);
      var want := done + [x.value];
      forall k | 0 <= k < j + 1
        ensures parse(next[k]).Ok? && parse(next[k]).value == want[k]
      {
        if k < j {
          assert next[k] == pre[k];
        }
      }
      assert ParseAll(next, parse).value == want;
    }
  }

  /**
   * Two sequences in a row: the first one's error, or else the second one's,
   * or else both results in order.
   */
  lemma ParseAllAppend<A, T>(xs: seq<A>, ys: seq<A>, parse: A -> Result<T>)
    ensures ParseAll(xs, parse).Err? ==> ParseAll(xs + ys, parse) == ParseAll(xs, parse)
    ensures ParseAll(xs, parse).Ok? && ParseAll(ys, parse).Err? ==> ParseAll(xs + ys, parse) == ParseAll(ys, parse)
    ensures ParseAll(xs, parse).Ok? && ParseAll(ys, parse).Ok? ==>
              ParseAll(xs + ys, parse) == Ok(ParseAll(xs, parse).value + ParseAll(ys, parse).value)
  {
    var zs := xs + ys;
    var r, rx, ry := ParseAll(zs, parse), ParseAll(xs, parse), ParseAll(ys, parse);
    ParseAllCases(xs, parse);
    ParseAllCases(ys, parse);
    ParseAllCases(zs, parse);
    if rx.Err? {
      var k :| 0 <= k < |xs| && parse(xs[k]).Err? && rx.error == parse(xs[k]).error &&
               forall j :: 0 <= j < k ==> parse(xs[j]).Ok?;
      assert zs[k] == xs[k];
      assert forall j :: 0 <= j < k ==> zs[j] == xs[j];
      FirstFailure(zs, parse, k);
    } else if ry.Err? {
      var k :| 0 <= k < |ys| && parse(ys[k]).Err? && ry.error == parse(ys[k]).error &&
               forall j :: 0 <= j < k ==> parse(ys[j]).Ok?;
      assert zs[|xs| + k] == ys[k];
      forall j | 0 <= j < |xs| + k
        ensures parse(zs[j]).Ok?
      {
        if j < |xs| {
          assert zs[j] == xs[j];
        } else {
          assert zs[j] == ys[j - |xs|];
        }
      }
      FirstFailure(zs, parse, |xs| + k);
    } else {
      forall j | 0 <= j < |zs|
        ensures parse(zs[j]).Ok? && parse(zs[j]).value == (rx.value + ry.value)[j]
      {
        if j < |xs| {
          assert zs[j] == xs[j];
        } else {
          assert zs[j] == ys[j - |xs|];
        }
      }
      assert r.value == rx.value + ry.value;
    }
  }

  /** The first element that fails decides the error. */
  lemma FirstFailure<A, T>(items: seq<A>, parse: A -> Result<T>, k: nat)
    requires k < |items| && parse(items[k]).Err? && forall j :: 0 <= j < k ==> parse(items[j]).Ok?
    ensures ParseAll(items, parse) == Err(parse(items[k]).error)
  {
    var r := ParseAll(items, parse);
    ParseAllCases(items, parse);
    var k' :| 0 <= k' < |items| && parse(items[k']).Err? && r.error == parse(items[k']).error &&
              forall j :: 0 <= j < k' ==> parse(items[j]).Ok?;
    assert k' == k;
  }

  /** Results already collected, followed by the outcome of the rest of a loop. */
  function Then<T>(done: seq<T>, later: Result<seq<T>>): (r: Result<seq<T>>)
    ensures later.Err? ==> r == later
    ensures later.Ok? ==> r == Ok(done + later.value)
  {
    if later.Err? then later else Ok(done + later.value)
  }

  /**
   * A loop over xs + ys that has collected `done`: a failure of xs ends it,
   * and otherwise xs's results join `done` and the loop goes on with ys.
   */
  lemma ThenAppend<A, T>(done: seq<T>, xs: seq<A>, ys: seq<A>, parse: A -> Result<T>)
    ensures ParseAll(xs, parse).Err? ==> Then(done, ParseAll(xs + ys, parse)) == ParseAll(xs, parse)
    ensures ParseAll(xs, parse).Ok? ==>
              Then(done, ParseAll(xs + ys, parse)) == Then(done + ParseAll(xs, parse).value, ParseAll(ys, parse))
  {
    ParseAllAppend(xs, ys, parse);
    var rx, ry := ParseAll(xs, parse), ParseAll(ys, parse);
    if rx.Ok? && ry.Ok? {
      assert done + (rx.value + ry.value) == (done + rx.value) + ry.value;
    }
  }
}

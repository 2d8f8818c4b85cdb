/**
 * The two regular expressions of the provider, each as a matcher with the
 * semantics of Go's regexp.FindStringSubmatch: the match that starts
 * leftmost, and among those the one a backtracking engine finds first (every
 * `(.+)` and `(.*)` as long as the rest still matches, earlier groups first).
 * `.` matches any character but a newline, and neither pattern is anchored.
 *
 *   customServiceAccountRe  serviceAccount:(.+)@(.+).iam.gserviceaccount.com
 *   apiConfigRe             projects\/(.+)\/locations\/global\/apis\/(.*)\/configs\/(.*)
 *
 * In the first pattern the dots of `.iam.gserviceaccount.com` are not
 * escaped, so each of them matches any character but a newline.
 *
 * Each matcher is written once for the shape of its pattern, with the
 * pattern's literal text as parameters (`pre (.+)@(.+) suf` and
 * `pre (.+) mid (.*) post (.*)`); MatchServiceAccount and MatchApiConfigName
 * apply them to the text of the two expressions above.
 */
module Patterns {
  import opened Errors

  /** s[lo..hi] exists and holds no newline: what `.` repeated can span. */
  predicate NoNewline(s: string, lo: int, hi: int) {
    0 <= lo <= hi <= |s| && forall k :: lo <= k < hi ==> s[k] != '\n'
  }

  /** The literal text `lit` occurs in `s` at `pos`. */
  predicate LitAt(s: string, pos: int, lit: string) {
    0 <= pos && pos + |lit| <= |s| && forall k :: 0 <= k < |lit| ==> s[pos + k] == lit[k]
  }

  /** A pattern of literal characters and unescaped `.` wildcards matches `s` at `pos`. */
  predicate PatAt(s: string, pos: int, pat: string) {
    0 <= pos && pos + |pat| <= |s| &&
    forall k :: 0 <= k < |pat| ==> if pat[k] == '.' then s[pos + k] != '\n' else s[pos + k] == pat[k]
  }

  /** Text without newlines that occurs literally also matches as a pattern. */
  lemma LitAtPatAt(s: string, pos: int, pat: string)
    requires LitAt(s, pos, pat) && '\n' !in pat
    ensures PatAt(s, pos, pat)
  {
    forall k | 0 <= k < |pat|
      ensures if pat[k] == '.' then s[pos + k] != '\n' else s[pos + k] == pat[k]
    {
      assert pat[k] != '\n';
    }
  }

  /** A slice equal to `lit` is an occurrence of it. */
  lemma SliceLitAt(s: string, pos: int, lit: string)
    requires 0 <= pos && pos + |lit| <= |s| && s[pos..pos + |lit|] == lit
    ensures LitAt(s, pos, lit)
  {
    forall k | 0 <= k < |lit|
      ensures s[pos + k] == lit[k]
    {
      assert s[pos..pos + |lit|][k] == s[pos + k];
    }
  }

  /** A newline-free part, read back by slicing, spans no newline. */
  lemma NoNewlineSlice(m: string, lo: int, hi: int, part: string)
    requires 0 <= lo <= hi <= |m| && m[lo..hi] == part && '\n' !in part
    ensures NoNewline(m, lo, hi)
  {
    forall k | lo <= k < hi
      ensures m[k] != '\n'
    {
      assert m[k] == part[k - lo];
    }
  }

  /** The five parts of a concatenation, read back by slicing. */
  lemma ConcatSlices5(a: string, b: string, c: string, d: string, e: string)
    ensures var m := a + b + c + d + e;
            var i1 := |a|; var i2 := i1 + |b|; var i3 := i2 + |c|; var i4 := i3 + |d|;
            m[..i1] == a && m[i1..i2] == b && m[i2..i3] == c && m[i3..i4] == d && m[i4..] == e
  {
    var m := a + b + c + d + e;
    var i1 := |a|; var i2 := i1 + |b|; var i3 := i2 + |c|; var i4 := i3 + |d|;
    assert m[..i4] == a + b + c + d;
    assert m[..i3] == a + b + c;
    assert m[..i2] == a + b;
    assert m[i1..i2] == m[..i2][i1..];
    assert m[i2..i3] == m[..i3][i2..];
    assert m[i3..i4] == m[..i4][i3..];
  }

  /** The six parts of a concatenation, read back by slicing. */
  lemma ConcatSlices6(a: string, b: string, c: string, d: string, e: string, f: string)
    ensures var m := a + b + c + d + e + f;
            var i1 := |a|; var i2 := i1 + |b|; var i3 := i2 + |c|; var i4 := i3 + |d|; var i5 := i4 + |e|;
            m[..i1] == a && m[i1..i2] == b && m[i2..i3] == c && m[i3..i4] == d && m[i4..i5] == e && m[i5..] == f
  {
    var m := a + b + c + d + e + f;
    var i5 := |a| + |b| + |c| + |d| + |e|;
    ConcatSlices5(a, b, c, d, e);
    assert m[..i5] == a + b + c + d + e;
    assert m[i5..] == f;
  }

  // ---------------------------------------------------------------------------
  // pre (.+)@(.+) suf, for serviceAccount:(.+)@(.+).iam.gserviceaccount.com

  const MemberPrefix := "serviceAccount:"
  const MemberSuffix := ".iam.gserviceaccount.com"

  /** The member text the IAM policy encoder writes for a service account. */
  function ServiceAccountMember(accountId: string, project: string): (m: string)
    ensures |m| == |MemberPrefix| + |accountId| + 1 + |project| + |MemberSuffix|
  {
    MemberPrefix + accountId + "@" + project + MemberSuffix
  }

  /** Group 2 spans m[at+1..e], and the suffix pattern follows it. */
  predicate EndOk(m: string, suf: string, at: int, e: int) {
    at + 1 < e && NoNewline(m, at + 1, e) && PatAt(m, e, suf)
  }

  /** Group 1 spans m[start+|pre|..at] and m[at] is the '@'; group 2 ends at e. */
  predicate MemberTail(m: string, pre: string, suf: string, start: int, at: int, e: int) {
    0 <= start && start + |pre| < at < |m| && m[at] == '@' && NoNewline(m, start + |pre|, at) && EndOk(m, suf, at, e)
  }

  /** A match of the whole pattern starting at `start`. */
  predicate MemberMatch(m: string, pre: string, suf: string, start: int, at: int, e: int) {
    LitAt(m, start, pre) && MemberTail(m, pre, suf, start, at, e)
  }

  /** The greedy end of group 2: the largest e <= bound that lets the suffix match (SearchEndGreedy). */
  function SearchEnd(m: string, suf: string, at: int, bound: int): (r: Option<int>)
    ensures r.Some? ==> r.value <= bound && EndOk(m, suf, at, r.value)
    decreases bound - at
  {
    if bound <= at + 1 then None
    else if EndOk(m, suf, at, bound) then Some(bound)
    else SearchEnd(m, suf, at, bound - 1)
  }

  /** No end of group 2 above the one SearchEnd picks, and none at all when it picks none. */
  lemma {:induction false} SearchEndGreedy(m: string, suf: string, at: int, bound: int)
    ensures SearchEnd(m, suf, at, bound).Some? ==>
              forall e :: SearchEnd(m, suf, at, bound).value < e <= bound ==> !EndOk(m, suf, at, e)
    ensures SearchEnd(m, suf, at, bound).None? ==> forall e :: e <= bound ==> !EndOk(m, suf, at, e)
    decreases bound - at
  {
    if bound > at + 1 && !EndOk(m, suf, at, bound) {
      SearchEndGreedy(m, suf, at, bound - 1);
    }
  }

  /** The greedy end of group 1: the largest '@' position <= bound from which the rest matches (SearchAtGreedy). */
  function SearchAt(m: string, pre: string, suf: string, start: int, bound: int): (r: Option<(int, int)>)
    ensures r.Some? ==> r.value.0 <= bound && MemberTail(m, pre, suf, start, r.value.0, r.value.1)
    decreases bound - start
  {
    if bound <= start + |pre| then None
    else
      var end := SearchEnd(m, suf, bound, |m|);
      if 0 <= start && bound < |m| && m[bound] == '@' && NoNewline(m, start + |pre|, bound) && end.Some? then
        Some((bound, end.value))
      else
        SearchAt(m, pre, suf, start, bound - 1)
  }

  /** Group 2 never ends past the text, since the suffix must still fit. */
  lemma EndOkWithin(m: string, suf: string, at: int)
    ensures forall e :: EndOk(m, suf, at, e) ==> e <= |m|
  {
  }

  /** No '@' above the one SearchAt picks starts a tail, nor does a longer group 2. */
  lemma {:induction false} SearchAtGreedy(m: string, pre: string, suf: string, start: int, bound: int)
    ensures SearchAt(m, pre, suf, start, bound).Some? ==>
              var r := SearchAt(m, pre, suf, start, bound).value;
              (forall at, e :: r.0 < at <= bound ==> !MemberTail(m, pre, suf, start, at, e)) &&
              (forall e :: r.1 < e ==> !MemberTail(m, pre, suf, start, r.0, e))
    ensures SearchAt(m, pre, suf, start, bound).None? ==>
              forall at, e :: at <= bound ==> !MemberTail(m, pre, suf, start, at, e)
    decreases bound - start
  {
    if bound > start + |pre| {
      SearchEndGreedy(m, suf, bound, |m|);
      EndOkWithin(m, suf, bound);
      var end := SearchEnd(m, suf, bound, |m|);
      if !(0 <= start && bound < |m| && m[bound] == '@' && NoNewline(m, start + |pre|, bound) && end.Some?) {
        SearchAtGreedy(m, pre, suf, start, bound - 1);
      }
    }
  }

  /** The leftmost start at or after `from` where the pattern matches, with its greedy groups (SearchMemberLeftmost). */
  function SearchMember(m: string, pre: string, suf: string, from: nat): (r: Option<(int, int, int)>)
    ensures r.Some? ==> from <= r.value.0 && MemberMatch(m, pre, suf, r.value.0, r.value.1, r.value.2)
    decreases |m| - from
  {
    if from + |pre| > |m| then None
    else
      var tail := SearchAt(m, pre, suf, from, |m| - 1);
      if LitAt(m, from, pre) && tail.Some? then Some((from, tail.value.0, tail.value.1))
      else SearchMember(m, pre, suf, from + 1)
  }

  /**
   * SearchMember is leftmost-first: no match starts before the one it picks,
   * no later '@' and no longer group 2 would do, and when it finds nothing
   * there is no match at all.
   */
  lemma {:induction false} SearchMemberLeftmost(m: string, pre: string, suf: string, from: nat)
    ensures SearchMember(m, pre, suf, from).Some? ==>
              var r := SearchMember(m, pre, suf, from).value;
              (forall s, at, e :: from <= s < r.0 ==> !MemberMatch(m, pre, suf, s, at, e)) &&
              (forall at, e :: r.1 < at ==> !MemberMatch(m, pre, suf, r.0, at, e)) &&
              (forall e :: r.2 < e ==> !MemberMatch(m, pre, suf, r.0, r.1, e))
    ensures SearchMember(m, pre, suf, from).None? ==> forall s, at, e :: from <= s ==> !MemberMatch(m, pre, suf, s, at, e)
    decreases |m| - from
  {
    if from + |pre| <= |m| {
      SearchAtGreedy(m, pre, suf, from, |m| - 1);
      if !(LitAt(m, from, pre) && SearchAt(m, pre, suf, from, |m| - 1).Some?) {
        SearchMemberLeftmost(m, pre, suf, from + 1);
      }
    }
  }

  /** The search finds something exactly when the pattern occurs somewhere in the text. */
  lemma SearchMemberFinds(m: string, pre: string, suf: string)
    ensures SearchMember(m, pre, suf, 0).Some? <==> exists s, at, e :: MemberMatch(m, pre, suf, s, at, e)
  {
    SearchMemberLeftmost(m, pre, suf, 0);
    var r := SearchMember(m, pre, suf, 0);
    if r.Some? {
      assert MemberMatch(m, pre, suf, r.value.0, r.value.1, r.value.2);
    }
  }

  /**
   * customServiceAccountRe.FindStringSubmatch(member), reduced to its two
   * groups: the account id and the project, or None when nothing matches.
   */
  function MatchServiceAccount(member: string): (r: Option<(string, string)>)
    ensures r.Some? ==> |r.value.0| > 0 && |r.value.1| > 0 && '\n' !in r.value.0 && '\n' !in r.value.1
  {
    var r := SearchMember(member, MemberPrefix, MemberSuffix, 0);
    if r.None? then None
    else
      var g1, g2 := member[r.value.0 + |MemberPrefix|..r.value.1], member[r.value.1 + 1..r.value.2];
      assert forall k :: 0 <= k < |g1| ==> g1[k] == member[r.value.0 + |MemberPrefix| + k];
      assert forall k :: 0 <= k < |g2| ==> g2[k] == member[r.value.1 + 1 + k];
      Some((g1, g2))
  }

  /** The matcher finds a match exactly when the pattern occurs somewhere in the text. */
  lemma MatchServiceAccountFinds(member: string)
    ensures MatchServiceAccount(member).Some? <==>
            exists s, at, e :: MemberMatch(member, MemberPrefix, MemberSuffix, s, at, e)
  {
    SearchMemberFinds(member, MemberPrefix, MemberSuffix);
  }

  /** Below the true end of group 2, the search only steps down. */
  lemma {:induction false} SearchEndAt(m: string, suf: string, at: int, e: int, bound: int)
    requires EndOk(m, suf, at, e) && e + |suf| == |m| && e <= bound
    ensures SearchEnd(m, suf, at, bound) == Some(e)
    decreases bound
  {
    if bound > e {
      SearchEndAt(m, suf, at, e, bound - 1);
    }
  }

  /** With no '@' after `at`, the search for group 1 stops at `at`. */
  lemma {:induction false} SearchAtAt(m: string, pre: string, suf: string, at: int, e: int, bound: int)
    requires |pre| < at <= bound < |m| && m[at] == '@' && NoNewline(m, |pre|, at)
    requires forall k :: at < k < |m| ==> m[k] != '@'
    requires SearchEnd(m, suf, at, |m|) == Some(e)
    ensures SearchAt(m, pre, suf, 0, bound).Some?
    ensures SearchAt(m, pre, suf, 0, bound).value.0 == at && SearchAt(m, pre, suf, 0, bound).value.1 == e
    decreases bound
  {
    if bound > at {
      SearchAtAt(m, pre, suf, at, e, bound - 1);
    }
  }

  /**
   * A text that matches at 0, whose suffix ends the text and which has no '@'
   * after the group 1 separator, is matched with exactly those groups.
   */
  lemma SearchFindsAccount(m: string, pre: string, suf: string, at: int, e: int)
    requires MemberMatch(m, pre, suf, 0, at, e) && e + |suf| == |m|
    requires forall k :: at < k < |m| ==> m[k] != '@'
    ensures var r := SearchMember(m, pre, suf, 0);
            r.Some? && r.value.0 == 0 && r.value.1 == at && r.value.2 == e
  {
    SearchEndAt(m, suf, at, e, |m|);
    SearchAtAt(m, pre, suf, at, e, |m| - 1);
  }

  /** The member the encoder writes matches at 0 with its '@' the last one in it. */
  lemma MemberNameMatches(accountId: string, project: string)
    requires |accountId| > 0 && |project| > 0
    requires '@' !in project && '\n' !in accountId && '\n' !in project
    ensures var m := ServiceAccountMember(accountId, project);
            var at := |MemberPrefix| + |accountId|;
            MemberMatch(m, MemberPrefix, MemberSuffix, 0, at, at + 1 + |project|) &&
            forall k :: at < k < |m| ==> m[k] != '@'
  {
    var m := ServiceAccountMember(accountId, project);
    var p := |MemberPrefix|;
    var at := p + |accountId|;
    var e := at + 1 + |project|;
    assert '@' !in MemberSuffix && '\n' !in MemberSuffix;
    ConcatSlices5(MemberPrefix, accountId, "@", project, MemberSuffix);
    SliceLitAt(m, 0, MemberPrefix);
    NoNewlineSlice(m, p, at, accountId);
    NoNewlineSlice(m, at + 1, e, project);
    assert m[at] == m[at..at + 1][0];
    assert m[e..e + |MemberSuffix|] == m[e..];
    SliceLitAt(m, e, MemberSuffix);
    LitAtPatAt(m, e, MemberSuffix);
    forall k | at < k < |m|
      ensures m[k] != '@'
    {
      if k < e {
        assert m[k] == m[at + 1..e][k - at - 1];
      } else {
        assert m[k] == m[e..][k - e];
      }
    }
  }

  /**
   * A member written by the encoder is matched back to its account id and
   * project when both are non-empty, the project holds no '@' and neither
   * holds a newline. (An '@' inside the account id is harmless: group 1 is
   * greedy and ends at the last '@'.)
   */
  lemma {:induction false} MemberRoundTrip(accountId: string, project: string)
    requires |accountId| > 0 && |project| > 0
    requires '@' !in project
    requires '\n' !in accountId && '\n' !in project
    ensures MatchServiceAccount(ServiceAccountMember(accountId, project)) == Some((accountId, project))
  {
    var m := ServiceAccountMember(accountId, project);
    var at := |MemberPrefix| + |accountId|;
    var e := at + 1 + |project|;
    MemberNameMatches(accountId, project);
    SearchFindsAccount(m, MemberPrefix, MemberSuffix, at, e);
    assert m[|MemberPrefix|..at] == accountId && m[at + 1..e] == project by {
      ConcatSlices5(MemberPrefix, accountId, "@", project, MemberSuffix);
    }
  }

  // ---------------------------------------------------------------------------
  // pre (.+) mid (.*) post (.*), for
  // projects\/(.+)\/locations\/global\/apis\/(.*)\/configs\/(.*)

  const ProjectsLit := "projects/"
  const ApisLit := "/locations/global/apis/"
  const ConfigsLit := "/configs/"

  /** The api config resource name the gateway and api config clients write. */
  function ApiConfigName(project: string, api: string, config: string): (s: string)
    ensures |s| == |ProjectsLit| + |project| + |ApisLit| + |api| + |ConfigsLit| + |config|
  {
    ProjectsLit + project + ApisLit + api + ConfigsLit + config
  }

  /** Group 3 from y+|post| to z. */
  predicate ThirdOk(s: string, post: string, y: int, z: int) {
    LitAt(s, y, post) && NoNewline(s, y + |post|, z)
  }

  /** Group 2 from x+|mid| to y, then group 3 to z. */
  predicate SecondOk(s: string, mid: string, post: string, x: int, y: int, z: int) {
    LitAt(s, x, mid) && NoNewline(s, x + |mid|, y) && ThirdOk(s, post, y, z)
  }

  /** A match of the whole pattern: start, then the ends of groups 1, 2 and 3. */
  predicate ConfigMatch(s: string, pre: string, mid: string, post: string, start: int, x: int, y: int, z: int) {
    LitAt(s, start, pre) && start + |pre| < x && NoNewline(s, start + |pre|, x) && SecondOk(s, mid, post, x, y, z)
  }

  /** The greedy end of group 3: the largest z <= bound with no newline since `lo`. */
  function SearchThird(s: string, lo: int, bound: int): (z: int)
    requires NoNewline(s, lo, lo) && lo <= bound
    ensures lo <= z <= bound && NoNewline(s, lo, z)
    ensures forall z' :: z < z' <= bound ==> !NoNewline(s, lo, z')
    decreases bound - lo
  {
    if NoNewline(s, lo, bound) then bound else SearchThird(s, lo, bound - 1)
  }

  /** The greedy end of group 2: the largest y <= bound followed by `post` (SearchSecondGreedy). */
  function SearchSecond(s: string, mid: string, post: string, x: int, bound: int): (r: Option<(int, int)>)
    ensures r.Some? ==> r.value.0 <= bound && SecondOk(s, mid, post, x, r.value.0, r.value.1)
    decreases bound - x
  {
    if bound < x + |mid| then None
    else if LitAt(s, x, mid) && NoNewline(s, x + |mid|, bound) && LitAt(s, bound, post) then
      var z := SearchThird(s, bound + |post|, |s|);
      Some((bound, z))
    else SearchSecond(s, mid, post, x, bound - 1)
  }

  /** No later `post` and no longer group 3 would do; none at all when SearchSecond finds none. */
  lemma {:induction false} SearchSecondGreedy(s: string, mid: string, post: string, x: int, bound: int)
    ensures SearchSecond(s, mid, post, x, bound).Some? ==>
              var r := SearchSecond(s, mid, post, x, bound).value;
              (forall y, z :: r.0 < y <= bound ==> !SecondOk(s, mid, post, x, y, z)) &&
              (forall z :: r.1 < z ==> !SecondOk(s, mid, post, x, r.0, z))
    ensures SearchSecond(s, mid, post, x, bound).None? ==> forall y, z :: y <= bound ==> !SecondOk(s, mid, post, x, y, z)
    decreases bound - x
  {
    if bound >= x + |mid| {
      if !(LitAt(s, x, mid) && NoNewline(s, x + |mid|, bound) && LitAt(s, bound, post)) {
        SearchSecondGreedy(s, mid, post, x, bound - 1);
      }
    }
  }

  /** The greedy end of group 1: the largest x <= bound from which the rest matches (SearchFirstGreedy). */
  function SearchFirst(s: string, pre: string, mid: string, post: string, start: int, bound: int): (r: Option<(int, int, int)>)
    ensures r.Some? ==> r.value.0 <= bound && ConfigMatch(s, pre, mid, post, start, r.value.0, r.value.1, r.value.2)
    decreases bound - start
  {
    if bound <= start + |pre| then None
    else
      var rest := SearchSecond(s, mid, post, bound, |s|);
      if LitAt(s, start, pre) && NoNewline(s, start + |pre|, bound) && rest.Some? then
        Some((bound, rest.value.0, rest.value.1))
      else SearchFirst(s, pre, mid, post, start, bound - 1)
  }

  /** Group 2 never ends past the text, since `post` must still fit. */
  lemma SecondOkWithin(s: string, mid: string, post: string, x: int)
    ensures forall y, z :: SecondOk(s, mid, post, x, y, z) ==> y <= |s|
  {
  }

  /** An end of group 1 where the search gives up starts no match. */
  lemma FirstFailsAt(s: string, pre: string, mid: string, post: string, start: int, x: int)
    requires !(LitAt(s, start, pre) && NoNewline(s, start + |pre|, x) && SearchSecond(s, mid, post, x, |s|).Some?)
    ensures forall y, z :: !ConfigMatch(s, pre, mid, post, start, x, y, z)
  {
    SearchSecondGreedy(s, mid, post, x, |s|);
    SecondOkWithin(s, mid, post, x);
  }

  /** No end of group 1 above the one SearchFirst picks would do, nor later groups 2 and 3. */
  lemma {:induction false} SearchFirstGreedy(s: string, pre: string, mid: string, post: string, start: int, bound: int)
    ensures SearchFirst(s, pre, mid, post, start, bound).Some? ==>
              var r := SearchFirst(s, pre, mid, post, start, bound).value;
              (forall x, y, z :: r.0 < x <= bound ==> !ConfigMatch(s, pre, mid, post, start, x, y, z)) &&
              (forall y, z :: r.1 < y ==> !ConfigMatch(s, pre, mid, post, start, r.0, y, z)) &&
              (forall z :: r.2 < z ==> !ConfigMatch(s, pre, mid, post, start, r.0, r.1, z))
    ensures SearchFirst(s, pre, mid, post, start, bound).None? ==>
              forall x, y, z :: x <= bound ==> !ConfigMatch(s, pre, mid, post, start, x, y, z)
    decreases bound - start
  {
    if bound > start + |pre| {
      if LitAt(s, start, pre) && NoNewline(s, start + |pre|, bound) && SearchSecond(s, mid, post, bound, |s|).Some? {
        SearchSecondGreedy(s, mid, post, bound, |s|);
        SecondOkWithin(s, mid, post, bound);
      } else {
        FirstFailsAt(s, pre, mid, post, start, bound);
        SearchFirstGreedy(s, pre, mid, post, start, bound - 1);
      }
    }
  }

  /** The leftmost start at or after `from` where the pattern matches, with its greedy groups (SearchConfigLeftmost). */
  function SearchConfig(s: string, pre: string, mid: string, post: string, from: nat): (r: Option<(int, int, int, int)>)
    ensures r.Some? ==> from <= r.value.0 && ConfigMatch(s, pre, mid, post, r.value.0, r.value.1, r.value.2, r.value.3)
    decreases |s| - from
  {
    if from + |pre| > |s| then None
    else
      var rest := SearchFirst(s, pre, mid, post, from, |s|);
      if LitAt(s, from, pre) && rest.Some? then
        Some((from, rest.value.0, rest.value.1, rest.value.2))
      else SearchConfig(s, pre, mid, post, from + 1)
  }

  /**
   * SearchConfig is leftmost-first: no match starts before the one it picks,
   * no later end of any group would do, and when it finds nothing there is no
   * match at all.
   */
  lemma {:induction false} SearchConfigLeftmost(s: string, pre: string, mid: string, post: string, from: nat)
    ensures SearchConfig(s, pre, mid, post, from).Some? ==>
              var r := SearchConfig(s, pre, mid, post, from).value;
              (forall st, x, y, z :: from <= st < r.0 ==> !ConfigMatch(s, pre, mid, post, st, x, y, z)) &&
              (forall x, y, z :: r.1 < x ==> !ConfigMatch(s, pre, mid, post, r.0, x, y, z)) &&
              (forall y, z :: r.2 < y ==> !ConfigMatch(s, pre, mid, post, r.0, r.1, y, z)) &&
              (forall z :: r.3 < z ==> !ConfigMatch(s, pre, mid, post, r.0, r.1, r.2, z))
    ensures SearchConfig(s, pre, mid, post, from).None? ==>
              forall st, x, y, z :: from <= st ==> !ConfigMatch(s, pre, mid, post, st, x, y, z)
    decreases |s| - from
  {
    if from + |pre| <= |s| {
      SearchFirstGreedy(s, pre, mid, post, from, |s|);
      if !(LitAt(s, from, pre) && SearchFirst(s, pre, mid, post, from, |s|).Some?) {
        SearchConfigLeftmost(s, pre, mid, post, from + 1);
      }
    }
  }

  /** The search finds something exactly when the pattern occurs somewhere in the text. */
  lemma SearchConfigFinds(s: string, pre: string, mid: string, post: string)
    ensures SearchConfig(s, pre, mid, post, 0).Some? <==> exists st, x, y, z :: ConfigMatch(s, pre, mid, post, st, x, y, z)
  {
    SearchConfigLeftmost(s, pre, mid, post, 0);
    var r := SearchConfig(s, pre, mid, post, 0);
    if r.Some? {
      assert ConfigMatch(s, pre, mid, post, r.value.0, r.value.1, r.value.2, r.value.3);
    }
  }

  /**
   * apiConfigRe.FindStringSubmatch(name), reduced to its three groups
   * (project, api id, config id), or None when nothing matches; the source's
   * `len(matches) < 4` test is exactly the None case.
   */
  function MatchApiConfigName(name: string): (r: Option<(string, string, string)>)
    ensures r.Some? ==> |r.value.0| > 0
  {
    var r := SearchConfig(name, ProjectsLit, ApisLit, ConfigsLit, 0);
    if r.None? then None
    else Some((name[r.value.0 + |ProjectsLit|..r.value.1], name[r.value.1 + |ApisLit|..r.value.2],
               name[r.value.2 + |ConfigsLit|..r.value.3]))
  }

  /** The matcher finds a match exactly when the pattern occurs somewhere in the text. */
  lemma MatchApiConfigNameFinds(name: string)
    ensures MatchApiConfigName(name).Some? <==>
            exists st, x, y, z :: ConfigMatch(name, ProjectsLit, ApisLit, ConfigsLit, st, x, y, z)
  {
    SearchConfigFinds(name, ProjectsLit, ApisLit, ConfigsLit);
  }

  /** Without `mid` at x, no group 2 can follow a group 1 ending there. */
  lemma {:induction false} SearchSecondAbsent(s: string, mid: string, post: string, x: int, bound: int)
    requires !LitAt(s, x, mid)
    ensures SearchSecond(s, mid, post, x, bound).None?
    decreases bound - x
  {
    if bound >= x + |mid| {
      SearchSecondAbsent(s, mid, post, x, bound - 1);
    }
  }

  /** With no `post` after y0, the search for group 2 stops at y0, and group 3 runs to the end. */
  lemma {:induction false} SearchSecondAt(s: string, mid: string, post: string, x: int, y0: int, bound: int)
    requires SecondOk(s, mid, post, x, y0, |s|) && y0 <= bound
    requires forall y :: y0 < y <= bound ==> !LitAt(s, y, post)
    ensures var r := SearchSecond(s, mid, post, x, bound);
            r.Some? && r.value.0 == y0 && r.value.1 == |s|
    decreases bound
  {
    if bound > y0 {
      SearchSecondAt(s, mid, post, x, y0, bound - 1);
    }
  }

  /** With no `mid` after x0, the search for group 1 stops at x0. */
  lemma {:induction false} SearchFirstAt(s: string, pre: string, mid: string, post: string, x0: int, bound: int)
    requires LitAt(s, 0, pre) && |pre| < x0 <= bound && NoNewline(s, |pre|, x0)
    requires SearchSecond(s, mid, post, x0, |s|).Some?
    requires forall x :: x0 < x <= bound ==> !LitAt(s, x, mid)
    ensures var r := SearchFirst(s, pre, mid, post, 0, bound);
            var q := SearchSecond(s, mid, post, x0, |s|);
            r.Some? && r.value.0 == x0 && r.value.1 == q.value.0 && r.value.2 == q.value.1
    decreases bound
  {
    if bound > x0 {
      SearchSecondAbsent(s, mid, post, bound, |s|);
      SearchFirstAt(s, pre, mid, post, x0, bound - 1);
    }
  }

  /**
   * A text that matches at 0 with group 3 running to its end, and holds no
   * `mid` after x0 and no `post` after y0, is matched with exactly those groups.
   */
  lemma SearchFindsConfig(s: string, pre: string, mid: string, post: string, x0: int, y0: int)
    requires ConfigMatch(s, pre, mid, post, 0, x0, y0, |s|)
    requires forall x :: x0 < x <= |s| ==> !LitAt(s, x, mid)
    requires forall y :: y0 < y <= |s| ==> !LitAt(s, y, post)
    ensures var r := SearchConfig(s, pre, mid, post, 0);
            r.Some? && r.value.0 == 0 && r.value.1 == x0 && r.value.2 == y0 && r.value.3 == |s|
  {
    SearchSecondAt(s, mid, post, x0, y0, |s|);
    SearchFirstAt(s, pre, mid, post, x0, |s|);
  }

  /** The name the clients write matches at 0 with the parts at their own places. */
  lemma NameMatches(project: string, api: string, config: string)
    requires |project| > 0 && '\n' !in project && '\n' !in api && '\n' !in config
    ensures var m := ApiConfigName(project, api, config);
            var x0 := |ProjectsLit| + |project|;
            ConfigMatch(m, ProjectsLit, ApisLit, ConfigsLit, 0, x0, x0 + |ApisLit| + |api|, |m|)
  {
    var m := ApiConfigName(project, api, config);
    var p := |ProjectsLit|;
    var x0 := p + |project|;
    var y0 := x0 + |ApisLit| + |api|;
    var z0 := y0 + |ConfigsLit|;
    ConcatSlices6(ProjectsLit, project, ApisLit, api, ConfigsLit, config);
    SliceLitAt(m, 0, ProjectsLit);
    SliceLitAt(m, x0, ApisLit);
    SliceLitAt(m, y0, ConfigsLit);
    NoNewlineSlice(m, p, x0, project);
    NoNewlineSlice(m, x0 + |ApisLit|, y0, api);
    assert m[z0..|m|] == m[z0..];
    NoNewlineSlice(m, z0, |m|, config);
  }

  /** The '/' characters of `m` are at 8 and at the literals placed at x0 and y0. */
  predicate SlashesOnlyAt(m: string, x0: int, y0: int) {
    forall k :: 0 <= k < |m| && m[k] == '/' ==>
      k == 8 || k == x0 || k == x0 + 10 || k == x0 + 17 || k == x0 + 22 || k == y0 || k == y0 + 8
  }

  /** Where the three literals of the pattern hold a '/'. */
  lemma LiteralSlashes()
    ensures forall j :: 0 <= j < |ProjectsLit| && ProjectsLit[j] == '/' ==> j == 8
    ensures forall j :: 0 <= j < |ApisLit| && ApisLit[j] == '/' ==> j == 0 || j == 10 || j == 17 || j == 22
    ensures forall j :: 0 <= j < |ConfigsLit| && ConfigsLit[j] == '/' ==> j == 0 || j == 8
  {
  }

  /** The only '/' characters of such a name are those of the three literals. */
  lemma NameSlashes(project: string, api: string, config: string)
    requires '/' !in project && '/' !in api && '/' !in config
    ensures var x0 := |ProjectsLit| + |project|;
            SlashesOnlyAt(ApiConfigName(project, api, config), x0, x0 + |ApisLit| + |api|)
  {
    var m := ApiConfigName(project, api, config);
    var p := |ProjectsLit|;
    var x0 := p + |project|;
    var y0 := x0 + |ApisLit| + |api|;
    var z0 := y0 + |ConfigsLit|;
    LiteralSlashes();
    forall k | 0 <= k < |m| && m[k] == '/'
      ensures k == 8 || k == x0 || k == x0 + 10 || k == x0 + 17 || k == x0 + 22 || k == y0 || k == y0 + 8
    {
      if k < p {
        assert m[k] == ProjectsLit[k];
      } else if x0 <= k < x0 + |ApisLit| {
        assert m[k] == ApisLit[k - x0];
      } else if y0 <= k < z0 {
        assert m[k] == ConfigsLit[k - y0];
      }
    }
  }

  /** "/locations/global/apis/" puts a '/' at offsets 0, 10, 17 and 22. */
  lemma ApisSlashes(m: string, x: int)
    requires LitAt(m, x, ApisLit)
    ensures m[x] == '/' && m[x + 10] == '/' && m[x + 17] == '/' && m[x + 22] == '/'
  {
    assert m[x + 0] == ApisLit[0] && m[x + 10] == ApisLit[10];
    assert m[x + 17] == ApisLit[17] && m[x + 22] == ApisLit[22];
  }

  /** "/configs/" puts a '/' at offsets 0 and 8. */
  lemma ConfigsSlashes(m: string, y: int)
    requires LitAt(m, y, ConfigsLit)
    ensures m[y] == '/' && m[y + 8] == '/'
  {
    assert m[y + 0] == ConfigsLit[0] && m[y + 8] == ConfigsLit[8];
  }

  /** Past x0, no "/locations/global/apis/" occurs. */
  lemma ApisOnlyAt(m: string, x0: int, y0: int)
    requires SlashesOnlyAt(m, x0, y0) && 9 < x0 && x0 + 23 <= y0
    ensures forall x :: x0 < x <= |m| ==> !LitAt(m, x, ApisLit)
  {
    forall x | x0 < x <= |m| && LitAt(m, x, ApisLit)
      ensures false
    {
      ApisSlashes(m, x);
    }
  }

  /** Past y0, no "/configs/" occurs. */
  lemma ConfigsOnlyAt(m: string, x0: int, y0: int)
    requires SlashesOnlyAt(m, x0, y0) && 9 < x0 && x0 + 23 <= y0
    ensures forall y :: y0 < y <= |m| ==> !LitAt(m, y, ConfigsLit)
  {
    forall y | y0 < y <= |m| && LitAt(m, y, ConfigsLit)
      ensures false
    {
      ConfigsSlashes(m, y);
    }
  }

  /**
   * The name the clients write is matched back to its three parts when the
   * project is non-empty and no part holds a '/' or a newline.
   */
  lemma {:induction false} ApiConfigNameRoundTrip(project: string, api: string, config: string)
    requires |project| > 0
    requires '/' !in project && '/' !in api && '/' !in config
    requires '\n' !in project && '\n' !in api && '\n' !in config
    ensures MatchApiConfigName(ApiConfigName(project, api, config)) == Some((project, api, config))
  {
    var m := ApiConfigName(project, api, config);
    var x0 := |ProjectsLit| + |project|;
    var y0 := x0 + |ApisLit| + |api|;
    NameMatches(project, api, config);
    NameSlashes(project, api, config);
    ApisOnlyAt(m, x0, y0);
    ConfigsOnlyAt(m, x0, y0);
    SearchFindsConfig(m, ProjectsLit, ApisLit, ConfigsLit, x0, y0);
    assert m[|ProjectsLit|..x0] == project && m[x0 + |ApisLit|..y0] == api && m[y0 + |ConfigsLit|..|m|] == config by {
      ConcatSlices6(ProjectsLit, project, ApisLit, api, ConfigsLit, config);
      assert m[y0 + |ConfigsLit|..|m|] == m[y0 + |ConfigsLit|..];
    }
  }
}

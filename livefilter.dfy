/**
 * `queryLiveSessions`: the walk over page 395 that keeps, in order, every
 * second-level container that is a live video. The walk is two levels
 * deep, `resultObj.containers[*]` and then each one's
 * `retrieveItems.resultObj.containers[*]`, and reads every field through
 * Qt's tolerant accessors.
 */
module LiveFilter {
  import opened Json

  /** The one page the listener reacts to. */
  const LiveSessionsPage: Int32 := 395

  const ContainersField: seq<string> := ["resultObj", "containers"]
  const RetrievedContainersField: seq<string> := ["retrieveItems", "resultObj", "containers"]

  /** Has `metadata`, and reads as `contentType == "VIDEO"`, `contentSubtype == "LIVE"`. */
  predicate IsLiveSession(v: Json)
    ensures IsLiveSession(v) <==>
      v.Object? && "metadata" in v.fields &&
      "contentType" in v.fields && v.fields["contentType"] == Str("VIDEO") &&
      "contentSubtype" in v.fields && v.fields["contentSubtype"] == Str("LIVE")
  {
    var o := ToObject(v);
    "metadata" in o &&
    ToString(Field(o, "contentType")) == "VIDEO" &&
    ToString(Field(o, "contentSubtype")) == "LIVE"
  }

  /** The first-level containers of a page. */
  function Containers(page: map<string, Json>): (r: seq<Json>)
    ensures Lookup(Object(page), ContainersField).Array? ==> r == Lookup(Object(page), ContainersField).items
    ensures !Lookup(Object(page), ContainersField).Array? ==> r == []
  {
    ToArray(Lookup(Object(page), ContainersField))
  }

  /** The second-level containers below one first-level container. */
  function SubContainers(container: Json): (r: seq<Json>)
    ensures Lookup(container, RetrievedContainersField).Array? ==> r == Lookup(container, RetrievedContainersField).items
    ensures !Lookup(container, RetrievedContainersField).Array? ==> r == []
  {
    ToArray(Lookup(container, RetrievedContainersField))
  }

  /** All second-level containers below `containers`, in order. */
  function Candidates(containers: seq<Json>): seq<Json>
  {
    if containers == [] then []
    else Candidates(containers[..|containers| - 1]) + SubContainers(containers[|containers| - 1])
  }

  /** The live sessions among `s`, in their order in `s`. */
  function Live(s: seq<Json>): (r: seq<Json>)
    ensures |r| <= |s|
    ensures forall k :: 0 <= k < |r| ==> IsLiveSession(r[k])
  {
    if s == [] then []
    else Live(s[..|s| - 1]) + (if IsLiveSession(s[|s| - 1]) then [s[|s| - 1]] else [])
  }

  /** What the listener collects from a page, as a reference definition. */
  function LiveSessions(page: map<string, Json>): (r: seq<Json>)
    ensures |r| <= |Candidates(Containers(page))|
    ensures forall k :: 0 <= k < |r| ==> IsLiveSession(r[k])
  {
    Live(Candidates(Containers(page)))
  }

  /**
   * The two nested loops of the listener, appending to the result as they
   * go; they compute exactly LiveSessions.
   */
  method CollectLiveSessions(page: map<string, Json>) returns (sessions: seq<Json>)
    ensures sessions == LiveSessions(page)
  {
    var containers := Containers(page);
    sessions := [];
    for i := 0 to |containers|
      invariant sessions == Live(Candidates(containers[..i]))
    {
      var subContainers := SubContainers(containers[i]);
      ghost var before := sessions;
      for j := 0 to |subContainers|
        invariant sessions == before + Live(subContainers[..j])
      {
        LivePrefixStep(subContainers, j);
        var contentContainer := subContainers[j];
        if IsLiveSession(contentContainer) {
          AppendAssociative(before, Live(subContainers[..j]), [contentContainer]);
          sessions := sessions + [contentContainer];
        }
      }
      assert subContainers[..|subContainers|] == subContainers;
      LiveCandidatesStep(containers, i);
    }
    assert containers[..|containers|] == containers;
  }

  /** The live sessions of one more container's candidates are appended to those before it. */
  lemma LiveCandidatesStep(containers: seq<Json>, i: nat)
    requires i < |containers|
    ensures Live(Candidates(containers[..i + 1])) ==
      Live(Candidates(containers[..i])) + Live(SubContainers(containers[i]))
  {
    CandidatesPrefixStep(containers, i);
    LiveAppend(Candidates(containers[..i]), SubContainers(containers[i]));
  }

  /** Regrouping a concatenation; the inner loop appends to the list the outer loop built. */
  lemma AppendAssociative(a: seq<Json>, b: seq<Json>, c: seq<Json>)
    ensures (a + b) + c == a + (b + c)
  {
  }

  /** One more element of a prefix adds it to Live when it is a live session. */
  lemma LivePrefixStep(s: seq<Json>, j: nat)
    requires j < |s|
    ensures Live(s[..j + 1]) == Live(s[..j]) + if IsLiveSession(s[j]) then [s[j]] else []
  {
    assert s[..j + 1][..j] == s[..j];
  }

  /** One more container of a prefix adds its second-level containers to the candidates. */
  lemma CandidatesPrefixStep(containers: seq<Json>, i: nat)
    requires i < |containers|
    ensures Candidates(containers[..i + 1]) == Candidates(containers[..i]) + SubContainers(containers[i])
  {
    assert containers[..i + 1][..i] == containers[..i];
  }

  /** Live distributes over concatenation: it keeps relative order. */
  lemma {:induction false} LiveAppend(a: seq<Json>, b: seq<Json>)
    ensures Live(a + b) == Live(a) + Live(b)
    decreases |b|
  {
    if b != [] {
      var front := b[..|b| - 1];
      assert (a + b)[..|a + b| - 1] == a + front;
      LiveAppend(a, front);
    } else {
      assert a + b == a;
    }
  }

  /** Every live session is kept as often as it occurs, and nothing else is kept. */
  lemma {:induction false} LiveMultiplicity(s: seq<Json>, x: Json)
    ensures multiset(Live(s))[x] == if IsLiveSession(x) then multiset(s)[x] else 0
    decreases |s|
  {
    if s != [] {
      var front := s[..|s| - 1];
      LiveMultiplicity(front, x);
      assert s == front + [s[|s| - 1]];
    }
  }

  /** Membership form of LiveMultiplicity, both directions. */
  lemma LiveMembership(s: seq<Json>, x: Json)
    ensures x in Live(s) <==> x in s && IsLiveSession(x)
  {
    LiveMultiplicity(s, x);
    assert x in Live(s) <==> multiset(Live(s))[x] > 0;
    assert x in s <==> multiset(s)[x] > 0;
  }

  /** `a` is `b` with some elements left out, the rest in order. */
  predicate IsSubsequence(a: seq<Json>, b: seq<Json>)
    decreases |b|
  {
    if a == [] then true
    else if b == [] then false
    else if a[|a| - 1] == b[|b| - 1] && IsSubsequence(a[..|a| - 1], b[..|b| - 1]) then true
    else IsSubsequence(a, b[..|b| - 1])
  }

  /** A subsequence stays one when the longer sequence grows. */
  lemma {:induction false} SubsequenceExtend(a: seq<Json>, b: seq<Json>, x: Json)
    requires IsSubsequence(a, b)
    ensures IsSubsequence(a, b + [x])
  {
    assert (b + [x])[..|b + [x]| - 1] == b;
  }

  lemma {:induction false} LiveIsSubsequence(s: seq<Json>)
    ensures IsSubsequence(Live(s), s)
    decreases |s|
  {
    if s != [] {
      var front := s[..|s| - 1];
      LiveIsSubsequence(front);
      assert s == front + [s[|s| - 1]];
      if IsLiveSession(s[|s| - 1]) {
        var r := Live(s);
        assert r[..|r| - 1] == Live(front);
      } else {
        assert Live(s) == Live(front);
        SubsequenceExtend(Live(front), front, s[|s| - 1]);
      }
    }
  }

  /** Some container among the first `n` has `x` below it. */
  predicate BelowSome(containers: seq<Json>, n: nat, x: Json)
    requires n <= |containers|
  {
    exists i :: 0 <= i < n && x in SubContainers(containers[i])
  }

  /** A candidate is exactly a second-level container of one of the containers. */
  lemma {:induction false} CandidateMembership(containers: seq<Json>, x: Json)
    ensures x in Candidates(containers) <==> BelowSome(containers, |containers|, x)
    decreases |containers|
  {
    if containers != [] {
      var n := |containers| - 1;
      var front := containers[..n];
      CandidateMembership(front, x);
      assert x in Candidates(containers) <==> x in Candidates(front) || x in SubContainers(containers[n]);
      BelowSomePrefix(containers, x);
    }
  }

  /** BelowSome of the whole sequence splits into its front and its last container. */
  lemma BelowSomePrefix(containers: seq<Json>, x: Json)
    requires containers != []
    ensures var n := |containers| - 1;
      BelowSome(containers, |containers|, x) <==>
      BelowSome(containers[..n], n, x) || x in SubContainers(containers[n])
  {
    BelowSomeFromFront(containers, x);
    if BelowSome(containers, |containers|, x) {
      BelowSomeToFront(containers, x);
    }
  }

  /** A second-level container of the front or of the last container is one of the whole. */
  lemma BelowSomeFromFront(containers: seq<Json>, x: Json)
    requires containers != []
    ensures var n := |containers| - 1;
      BelowSome(containers[..n], n, x) || x in SubContainers(containers[n]) ==>
      BelowSome(containers, |containers|, x)
  {
    var n := |containers| - 1;
    if BelowSome(containers[..n], n, x) {
      var i :| 0 <= i < n && x in SubContainers(containers[..n][i]);
      assert containers[i] == containers[..n][i];
    }
  }

  /** A second-level container of the whole is one of the front or of the last container. */
  lemma BelowSomeToFront(containers: seq<Json>, x: Json)
    requires containers != [] && BelowSome(containers, |containers|, x)
    ensures var n := |containers| - 1;
      BelowSome(containers[..n], n, x) || x in SubContainers(containers[n])
  {
    var n := |containers| - 1;
    var i :| 0 <= i < |containers| && x in SubContainers(containers[i]);
    if i < n {
      var front := containers[..n];
      assert front[i] == containers[i];
      assert x in SubContainers(front[i]);
    }
  }

  /**
   * The listener's result, characterised: a value is collected exactly when
   * it is a live session among the second-level containers of the page.
   */
  lemma LiveSessionsExactly(page: map<string, Json>, x: Json)
    ensures x in LiveSessions(page) <==>
      IsLiveSession(x) && BelowSome(Containers(page), |Containers(page)|, x)
  {
    LiveMembership(Candidates(Containers(page)), x);
    CandidateMembership(Containers(page), x);
  }

  /**
   * One container holding a live video, a replay and an article: only the
   * live video is collected.
   */
  lemma LiveVideoAmongOthers()
    ensures var meta := Object(map[]);
      var live := Object(map["contentType" := Str("VIDEO"), "contentSubtype" := Str("LIVE"), "metadata" := meta]);
      var replay := Object(map["contentType" := Str("VIDEO"), "contentSubtype" := Str("REPLAY"), "metadata" := meta]);
      var article := Object(map["contentType" := Str("ARTICLE"), "metadata" := meta]);
      var container := Nest(RetrievedContainersField, Array([live, replay, article]));
      LiveSessions(map["resultObj" := Object(map["containers" := Array([container])])]) == [live]
  {
    var meta := Object(map[]);
    var live := Object(map["contentType" := Str("VIDEO"), "contentSubtype" := Str("LIVE"), "metadata" := meta]);
    var replay := Object(map["contentType" := Str("VIDEO"), "contentSubtype" := Str("REPLAY"), "metadata" := meta]);
    var article := Object(map["contentType" := Str("ARTICLE"), "metadata" := meta]);
    var items := [live, replay, article];
    var container := Nest(RetrievedContainersField, Array(items));
    var page := map["resultObj" := Object(map["containers" := Array([container])])];
    LookupNest(RetrievedContainersField, Array(items));
    assert Containers(page) == [container];
    assert Candidates([container]) == items by {
      assert [container][..0] == [];
    }
    assert IsLiveSession(live) && !IsLiveSession(replay) && !IsLiveSession(article);
    OnlyFirstIsLive(live, replay, article);
  }

  /** Of three candidates of which only the first is live, only the first is collected. */
  lemma OnlyFirstIsLive(a: Json, b: Json, c: Json)
    requires IsLiveSession(a) && !IsLiveSession(b) && !IsLiveSession(c)
    ensures Live([a, b, c]) == [a]
  {
    assert [a, b, c][..2] == [a, b] && [a, b][..1] == [a] && [a][..0] == [];
    assert Live([a]) == [a];
    assert Live([a, b]) == [a];
  }
}

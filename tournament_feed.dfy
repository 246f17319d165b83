/**
 * The tournament feed of the dashboard's service layer (getTournaments):
 * given the current instant and the list the tournament endpoint returned,
 * put every tournament into one of three buckets by comparing the instant
 * with its start and finish, order the buckets by start (upcoming and running
 * ascending, finished descending) and keep the ten most recent finished ones.
 * Instants are integer milliseconds.
 */
module TournamentFeed {

  /** A tournament as the listing endpoint returns it; instants in milliseconds. */
  datatype Tournament = Tournament(
    id: string,
    fullName: string,
    startsAt: int,
    finishesAt: int,
    nbPlayers: nat)

  /** The three buckets: not started yet, running, over. */
  datatype Status = Created | Started | Finished

  /** The result object of the feed: one sequence per bucket. */
  datatype Buckets = Buckets(
    created: seq<Tournament>,
    started: seq<Tournament>,
    finished: seq<Tournament>)

  /** How many finished tournaments the feed keeps. */
  const MaxFinished: nat := 10

  function Min(a: nat, b: nat): nat { if a <= b then a else b }

  /** The bucket a tournament belongs in at instant now. */
  function Classify(now: int, t: Tournament): (s: Status)
    ensures s == Created <==> now < t.startsAt
    ensures s == Started <==> t.startsAt <= now <= t.finishesAt
    ensures s == Finished <==> t.startsAt <= now && t.finishesAt < now
  {
    if now < t.startsAt then Created
    else if now >= t.startsAt && now <= t.finishesAt then Started
    else Finished
  }

  /** The tournaments of ts that belong in bucket s at instant now, in input order. */
  function Bucket(now: int, ts: seq<Tournament>, s: Status): (b: seq<Tournament>)
    ensures |b| <= |ts|
  {
    if ts == [] then []
    else
      var last := ts[|ts| - 1];
      Bucket(now, ts[..|ts| - 1], s) + (if Classify(now, last) == s then [last] else [])
  }

  /** A bucket holds exactly the input tournaments whose times select it. */
  lemma {:induction false} BucketMembership(now: int, ts: seq<Tournament>, s: Status, t: Tournament)
    ensures t in Bucket(now, ts, s) <==> t in ts && Classify(now, t) == s
  {
    if ts != [] {
      var last := ts[|ts| - 1];
      BucketMembership(now, ts[..|ts| - 1], s, t);
      assert ts == ts[..|ts| - 1] + [last];
    }
  }

  /** Adding a tournament at the end adds it to its own bucket and to no other. */
  lemma BucketStep(now: int, ts: seq<Tournament>, s: Status)
    requires ts != []
    ensures multiset(Bucket(now, ts, s))
            == multiset(Bucket(now, ts[..|ts| - 1], s))
               + (if Classify(now, ts[|ts| - 1]) == s then multiset{ts[|ts| - 1]} else multiset{})
  {
  }

  /** Every tournament lands in exactly one bucket: the buckets together are the input, counted with multiplicity. */
  lemma {:induction false} BucketsPartition(now: int, ts: seq<Tournament>)
    ensures multiset(Bucket(now, ts, Created)) + multiset(Bucket(now, ts, Started))
            + multiset(Bucket(now, ts, Finished)) == multiset(ts)
  {
    if ts != [] {
      var init, last := ts[..|ts| - 1], ts[|ts| - 1];
      BucketsPartition(now, init);
      assert ts == init + [last];
      assert multiset(ts) == multiset(init) + multiset{last};
      BucketStep(now, ts, Created);
      BucketStep(now, ts, Started);
      BucketStep(now, ts, Finished);
    }
  }

  // ---------------------------------------------------------------------
  // Ordering by start. Array.prototype.sort is stable, so tournaments with
  // equal starts keep their input order; StableSort is an insertion sort
  // with that behaviour, for either direction.
  // ---------------------------------------------------------------------

  datatype Direction = Ascending | Descending

  /** The sort key: the start, negated for the descending order. */
  function Rank(d: Direction, t: Tournament): int
  {
    if d == Ascending then t.startsAt else -t.startsAt
  }

  predicate Ordered(d: Direction, s: seq<Tournament>)
  {
    forall i, j :: 0 <= i < j < |s| ==> Rank(d, s[i]) <= Rank(d, s[j])
  }

  /** Puts x after every element of s that does not rank after it. */
  function Insert(d: Direction, x: Tournament, s: seq<Tournament>): (r: seq<Tournament>)
    ensures |r| == |s| + 1
  {
    if s == [] then [x]
    else if Rank(d, x) < Rank(d, s[0]) then [x] + s
    else [s[0]] + Insert(d, x, s[1..])
  }

  lemma {:induction false} InsertPermutation(d: Direction, x: Tournament, s: seq<Tournament>)
    ensures multiset(Insert(d, x, s)) == multiset(s) + multiset{x}
  {
    if s != [] && Rank(d, x) >= Rank(d, s[0]) {
      InsertPermutation(d, x, s[1..]);
      assert s == [s[0]] + s[1..];
    }
  }

  /** A bound below x and every element of s stays below every element after inserting x. */
  lemma {:induction false} InsertBound(d: Direction, x: Tournament, s: seq<Tournament>, v: int)
    requires v <= Rank(d, x)
    requires forall i :: 0 <= i < |s| ==> v <= Rank(d, s[i])
    ensures forall i :: 0 <= i < |Insert(d, x, s)| ==> v <= Rank(d, Insert(d, x, s)[i])
  {
    if s != [] && Rank(d, x) >= Rank(d, s[0]) {
      InsertBound(d, x, s[1..], v);
      var r := Insert(d, x, s);
      assert forall i :: 1 <= i < |r| ==> r[i] == Insert(d, x, s[1..])[i - 1];
    }
  }

  lemma {:induction false} InsertOrdered(d: Direction, x: Tournament, s: seq<Tournament>)
    requires Ordered(d, s)
    ensures Ordered(d, Insert(d, x, s))
  {
    if s != [] && Rank(d, x) >= Rank(d, s[0]) {
      var tail := Insert(d, x, s[1..]);
      InsertOrdered(d, x, s[1..]);
      InsertBound(d, x, s[1..], Rank(d, s[0]));
      var r := Insert(d, x, s);
      assert r == [s[0]] + tail;
      forall i, j | 0 <= i < j < |r|
        ensures Rank(d, r[i]) <= Rank(d, r[j])
      {
        assert r[j] == tail[j - 1];
        if i > 0 {
          assert r[i] == tail[i - 1];
        }
      }
    }
  }

  /** The stable sort of s in direction d. */
  function StableSort(d: Direction, s: seq<Tournament>): (r: seq<Tournament>)
    ensures |r| == |s|
  {
    if s == [] then [] else Insert(d, s[|s| - 1], StableSort(d, s[..|s| - 1]))
  }

  /** Sorting rearranges: the result holds the same tournaments, each as often. */
  lemma {:induction false} StableSortPermutation(d: Direction, s: seq<Tournament>)
    ensures multiset(StableSort(d, s)) == multiset(s)
  {
    if s != [] {
      var last := s[|s| - 1];
      StableSortPermutation(d, s[..|s| - 1]);
      InsertPermutation(d, last, StableSort(d, s[..|s| - 1]));
      assert s == s[..|s| - 1] + [last];
    }
  }

  lemma {:induction false} StableSortOrdered(d: Direction, s: seq<Tournament>)
    ensures Ordered(d, StableSort(d, s))
  {
    if s != [] {
      StableSortOrdered(d, s[..|s| - 1]);
      InsertOrdered(d, s[|s| - 1], StableSort(d, s[..|s| - 1]));
    }
  }

  /** The tournaments of s that start at instant k, in their order in s. */
  function WithStart(s: seq<Tournament>, k: int): seq<Tournament>
  {
    if s == [] then [] else (if s[0].startsAt == k then [s[0]] else []) + WithStart(s[1..], k)
  }

  lemma {:induction false} WithStartAppend(a: seq<Tournament>, b: seq<Tournament>, k: int)
    ensures WithStart(a + b, k) == WithStart(a, k) + WithStart(b, k)
  {
    if a == [] {
      assert a + b == b;
    } else {
      assert (a + b)[1..] == a[1..] + b;
      WithStartAppend(a[1..], b, k);
    }
  }

  lemma {:induction false} WithStartNone(s: seq<Tournament>, k: int)
    requires forall i :: 0 <= i < |s| ==> s[i].startsAt != k
    ensures WithStart(s, k) == []
  {
    if s != [] {
      WithStartNone(s[1..], k);
    }
  }

  lemma OrderedTail(d: Direction, s: seq<Tournament>)
    requires s != [] && Ordered(d, s)
    ensures Ordered(d, s[1..])
  {
    forall i, j | 0 <= i < j < |s[1..]|
      ensures Rank(d, s[1..][i]) <= Rank(d, s[1..][j])
    {
      assert s[1..][i] == s[i + 1] && s[1..][j] == s[j + 1];
    }
  }

  /** An element ranked strictly before the head of an ordered sequence shares its start with none of it. */
  lemma StartBeforeAll(d: Direction, x: Tournament, s: seq<Tournament>)
    requires s != [] && Ordered(d, s) && Rank(d, x) < Rank(d, s[0])
    ensures WithStart(s, x.startsAt) == []
  {
    forall i | 0 <= i < |s|
      ensures s[i].startsAt != x.startsAt
    {
      if i > 0 {
        assert Rank(d, s[0]) <= Rank(d, s[i]);
      }
    }
    WithStartNone(s, x.startsAt);
  }

  /** Inserting into an ordered sequence puts x after the others with its start. */
  lemma {:induction false} InsertStable(d: Direction, x: Tournament, s: seq<Tournament>, k: int)
    requires Ordered(d, s)
    ensures WithStart(Insert(d, x, s), k) == WithStart(s, k) + (if x.startsAt == k then [x] else [])
  {
    var own: seq<Tournament> := if x.startsAt == k then [x] else [];
    if s == [] {
      assert WithStart([x], k) == own + WithStart([], k);
    } else if Rank(d, x) < Rank(d, s[0]) {
      assert ([x] + s)[1..] == s;
      assert WithStart([x] + s, k) == own + WithStart(s, k);
      if x.startsAt == k {
        StartBeforeAll(d, x, s);
      }
    } else {
      OrderedTail(d, s);
      InsertStable(d, x, s[1..], k);
      var tail := Insert(d, x, s[1..]);
      var head: seq<Tournament> := if s[0].startsAt == k then [s[0]] else [];
      assert Insert(d, x, s) == [s[0]] + tail;
      assert ([s[0]] + tail)[1..] == tail;
      assert WithStart([s[0]] + tail, k) == head + WithStart(tail, k);
      assert WithStart(s, k) == head + WithStart(s[1..], k);
    }
  }

  /** Tournaments that share a start keep their input order. */
  lemma {:induction false} StableSortStable(d: Direction, s: seq<Tournament>, k: int)
    ensures WithStart(StableSort(d, s), k) == WithStart(s, k)
  {
    if s != [] {
      var last := s[|s| - 1];
      var init := s[..|s| - 1];
      StableSortStable(d, init, k);
      StableSortOrdered(d, init);
      InsertStable(d, last, StableSort(d, init), k);
      assert s == init + [last];
      WithStartAppend(init, [last], k);
      assert WithStart([last], k) == (if last.startsAt == k then [last] else []) + WithStart([], k);
    }
  }

  // ---------------------------------------------------------------------
  // The feed itself.
  // ---------------------------------------------------------------------

  /** The finished bucket ordered most recent start first, before the cut to MaxFinished. */
  function SortedFinished(now: int, data: seq<Tournament>): seq<Tournament>
  {
    StableSort(Descending, Bucket(now, data, Finished))
  }

  /** What the feed returns for the payload data at instant now. */
  function Categorize(now: int, data: seq<Tournament>): Buckets
  {
    var finished := SortedFinished(now, data);
    Buckets(
      StableSort(Ascending, Bucket(now, data, Created)),
      StableSort(Ascending, Bucket(now, data, Started)),
      finished[..Min(MaxFinished, |finished|)])
  }

  /**
   * The feed: push each tournament onto its bucket, sort the buckets, then
   * replace the finished bucket by its first MaxFinished entries. The payload
   * is a value and is not changed; the result depends on now and data only.
   */
  method GetTournaments(now: int, data: seq<Tournament>) returns (result: Buckets)
    ensures result == Categorize(now, data)
    ensures |result.finished| <= MaxFinished
  {
    result := Buckets([], [], []);
    for i := 0 to |data|
      invariant result.created == Bucket(now, data[..i], Created)
      invariant result.started == Bucket(now, data[..i], Started)
      invariant result.finished == Bucket(now, data[..i], Finished)
    {
      var tournament := data[i];
      var start := tournament.startsAt;
      var end := tournament.finishesAt;
      assert data[..i + 1][..i] == data[..i];
      if now < start {
        result := result.(created := result.created + [tournament]);
      } else if now >= start && now <= end {
        result := result.(started := result.started + [tournament]);
      } else {
        result := result.(finished := result.finished + [tournament]);
      }
    }
    assert data[..|data|] == data;
    result := result.(created := StableSort(Ascending, result.created));
    result := result.(started := StableSort(Ascending, result.started));
    result := result.(finished := StableSort(Descending, result.finished));
    result := result.(finished := result.finished[..Min(MaxFinished, |result.finished|)]);
  }

  // ---------------------------------------------------------------------
  // Properties of the feed.
  // ---------------------------------------------------------------------

  /**
   * Upcoming and running tournaments are all kept, each in the bucket its
   * times select; a finished one is kept only in the finished bucket.
   */
  lemma CategorizeMembership(now: int, data: seq<Tournament>, t: Tournament)
    ensures t in Categorize(now, data).created <==> t in data && now < t.startsAt
    ensures t in Categorize(now, data).started <==> t in data && t.startsAt <= now <= t.finishesAt
    ensures t in Categorize(now, data).finished ==> t in data && t.startsAt <= now && t.finishesAt < now
    ensures t in SortedFinished(now, data) <==> t in data && t.startsAt <= now && t.finishesAt < now
  {
    var r := Categorize(now, data);
    var sf := SortedFinished(now, data);
    BucketMembership(now, data, Created, t);
    BucketMembership(now, data, Started, t);
    BucketMembership(now, data, Finished, t);
    StableSortPermutation(Ascending, Bucket(now, data, Created));
    StableSortPermutation(Ascending, Bucket(now, data, Started));
    StableSortPermutation(Descending, Bucket(now, data, Finished));
    assert t in r.created <==> t in multiset(r.created);
    assert t in r.started <==> t in multiset(r.started);
    assert t in sf <==> t in multiset(sf);
    assert t in r.finished ==> t in sf;
  }

  /** No tournament is in two buckets. */
  lemma BucketsDisjoint(now: int, data: seq<Tournament>, t: Tournament)
    ensures !(t in Categorize(now, data).created && t in Categorize(now, data).started)
    ensures !(t in Categorize(now, data).created && t in Categorize(now, data).finished)
    ensures !(t in Categorize(now, data).started && t in Categorize(now, data).finished)
  {
    CategorizeMembership(now, data, t);
  }

  /** Before the cut, the three buckets hold exactly the input: nothing dropped, nothing duplicated. */
  lemma CategorizePermutation(now: int, data: seq<Tournament>)
    ensures multiset(Categorize(now, data).created) + multiset(Categorize(now, data).started)
            + multiset(SortedFinished(now, data)) == multiset(data)
    ensures |Categorize(now, data).created| + |Categorize(now, data).started|
            + |SortedFinished(now, data)| == |data|
  {
    BucketsPartition(now, data);
    StableSortPermutation(Ascending, Bucket(now, data, Created));
    StableSortPermutation(Ascending, Bucket(now, data, Started));
    StableSortPermutation(Descending, Bucket(now, data, Finished));
    var r := Categorize(now, data);
    var sf := SortedFinished(now, data);
    assert |multiset(r.created) + multiset(r.started) + multiset(sf)| == |multiset(data)|;
  }

  /** Upcoming and running tournaments are never cut: each bucket is as long as its input selection. */
  lemma CreatedStartedComplete(now: int, data: seq<Tournament>)
    ensures |Categorize(now, data).created| == |Bucket(now, data, Created)|
    ensures |Categorize(now, data).started| == |Bucket(now, data, Started)|
  {
    var r := Categorize(now, data);
    StableSortPermutation(Ascending, Bucket(now, data, Created));
    StableSortPermutation(Ascending, Bucket(now, data, Started));
    assert |multiset(r.created)| == |multiset(Bucket(now, data, Created))|;
    assert |multiset(r.started)| == |multiset(Bucket(now, data, Started))|;
  }

  /** Upcoming and running tournaments come earliest start first; finished ones latest start first. */
  lemma CategorizeOrdered(now: int, data: seq<Tournament>)
    ensures forall i, j :: 0 <= i < j < |Categorize(now, data).created| ==>
              Categorize(now, data).created[i].startsAt <= Categorize(now, data).created[j].startsAt
    ensures forall i, j :: 0 <= i < j < |Categorize(now, data).started| ==>
              Categorize(now, data).started[i].startsAt <= Categorize(now, data).started[j].startsAt
    ensures forall i, j :: 0 <= i < j < |Categorize(now, data).finished| ==>
              Categorize(now, data).finished[i].startsAt >= Categorize(now, data).finished[j].startsAt
  {
    var r := Categorize(now, data);
    var sf := SortedFinished(now, data);
    StableSortOrdered(Ascending, Bucket(now, data, Created));
    StableSortOrdered(Ascending, Bucket(now, data, Started));
    StableSortOrdered(Descending, Bucket(now, data, Finished));
    forall i, j | 0 <= i < j < |r.finished|
      ensures r.finished[i].startsAt >= r.finished[j].startsAt
    {
      assert r.finished[i] == sf[i] && r.finished[j] == sf[j];
      assert Rank(Descending, sf[i]) <= Rank(Descending, sf[j]);
    }
  }

  /** Within each bucket, tournaments with the same start appear in input order. */
  lemma CategorizeStable(now: int, data: seq<Tournament>, k: int)
    ensures WithStart(Categorize(now, data).created, k) == WithStart(Bucket(now, data, Created), k)
    ensures WithStart(Categorize(now, data).started, k) == WithStart(Bucket(now, data, Started), k)
    ensures WithStart(SortedFinished(now, data), k) == WithStart(Bucket(now, data, Finished), k)
  {
    StableSortStable(Ascending, Bucket(now, data, Created), k);
    StableSortStable(Ascending, Bucket(now, data, Started), k);
    StableSortStable(Descending, Bucket(now, data, Finished), k);
  }

  /**
   * The finished bucket is the first min(MaxFinished, n) of the n finished
   * tournaments ordered by start descending, so none that was left out
   * started later than one that was kept.
   */
  lemma FinishedTruncation(now: int, data: seq<Tournament>)
    ensures |Categorize(now, data).finished| == Min(MaxFinished, |Bucket(now, data, Finished)|)
    ensures Categorize(now, data).finished == SortedFinished(now, data)[..|Categorize(now, data).finished|]
    ensures forall i, j :: 0 <= i < |Categorize(now, data).finished| <= j < |SortedFinished(now, data)| ==>
              SortedFinished(now, data)[j].startsAt <= Categorize(now, data).finished[i].startsAt
  {
    var sf := SortedFinished(now, data);
    var kept := Categorize(now, data).finished;
    StableSortOrdered(Descending, Bucket(now, data, Finished));
    forall i, j | 0 <= i < |kept| <= j < |sf|
      ensures sf[j].startsAt <= kept[i].startsAt
    {
      assert kept[i] == sf[i];
      assert Rank(Descending, sf[i]) <= Rank(Descending, sf[j]);
    }
  }

  /** At instant T, A (finished) ends up finished, B (running) started and C (upcoming) created. */
  lemma ExampleOneOfEach(T: int)
    ensures var a := Tournament("A", "A", T - 10, T - 5, 0);
            var b := Tournament("B", "B", T - 1, T + 5, 0);
            var c := Tournament("C", "C", T + 5, T + 10, 0);
            Categorize(T, [a, b, c]) == Buckets([c], [b], [a])
  {
    var a := Tournament("A", "A", T - 10, T - 5, 0);
    var b := Tournament("B", "B", T - 1, T + 5, 0);
    var c := Tournament("C", "C", T + 5, T + 10, 0);
    var data := [a, b, c];
    assert data[..2] == [a, b] && [a, b][..1] == [a] && [a][..0] == [];
    assert Bucket(T, [a], Created) == [] && Bucket(T, [a], Started) == [] && Bucket(T, [a], Finished) == [a];
    assert Bucket(T, [a, b], Created) == [] && Bucket(T, [a, b], Started) == [b] && Bucket(T, [a, b], Finished) == [a];
    assert Bucket(T, data, Created) == [c] && Bucket(T, data, Started) == [b] && Bucket(T, data, Finished) == [a];
    assert [c][..0] == [] && [b][..0] == [] && [a][..0] == [];
  }

  /** However many tournaments are over, at most MaxFinished of them are kept. */
  lemma FinishedBounded(now: int, data: seq<Tournament>)
    ensures |Categorize(now, data).finished| <= MaxFinished
    ensures |Bucket(now, data, Finished)| >= MaxFinished ==> |Categorize(now, data).finished| == MaxFinished
  {
    FinishedTruncation(now, data);
  }
}

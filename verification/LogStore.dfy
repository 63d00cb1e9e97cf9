/**
 The log of one service: a ring of recent records in front of the log files, and
 the history query that reads both.
 */
module LogStore {
  import opened Wrappers
  import opened LogFiles

  const NO_RECORD := Record(0, System, 0, "", 0)

  // ------------------------------------------------------------------------ ring

  /** The `len` records written before position `next` of a ring, oldest first. */
  function Window<T>(slots: seq<T>, next: nat, len: nat): (w: seq<T>)
    requires next < |slots| && len <= |slots|
    ensures |w| == len
  {
    seq(len, i requires 0 <= i < len => slots[(next - len + |slots| + i) % |slots|])
  }

  lemma WrapAround(x: nat, n: nat)
    requires 0 < n && x < 2 * n
    ensures x % n == if x < n then x else x - n
  {
  }

  /** Storing a record at `next` appends it and forgets the oldest one when full. */
  lemma PushAppends<T>(slots: seq<T>, next: nat, len: nat, x: T)
    requires next < |slots| && len <= |slots|
    ensures Window(slots[next := x], (next + 1) % |slots|, Min(len + 1, |slots|))
         == Last(Window(slots, next, len) + [x], |slots|)
  {
    var n := |slots|;
    var after, grown := (next + 1) % n, Min(len + 1, n);
    WrapAround(next + 1, n);
    var was, now := Window(slots, next, len), Window(slots[next := x], after, grown);
    var want := Last(was + [x], n);
    forall k | 0 <= k < grown
      ensures now[k] == want[k]
    {
      WrapAround(after - grown + n + k, n);
      var j := if len == n then k + 1 else k;
      assert want[k] == (was + [x])[j];
      if j < len {
        WrapAround(next - len + n + j, n);
      }
    }
  }

  // --------------------------------------------------------------------- sorting

  predicate InOrder(s: seq<Record>) {
    forall i, j | 0 <= i < j < |s| :: s[i].number <= s[j].number
  }

  /** `r` after every record of `s` that is not newer. */
  function Insert(s: seq<Record>, r: Record): seq<Record> {
    if s == [] || s[|s| - 1].number <= r.number then s + [r]
    else Insert(s[..|s| - 1], r) + [s[|s| - 1]]
  }

  function StableSort(s: seq<Record>): seq<Record> {
    if s == [] then [] else Insert(StableSort(s[..|s| - 1]), s[|s| - 1])
  }

  lemma InOrderSnoc(s: seq<Record>, r: Record)
    requires InOrder(s) && forall x | x in s :: x.number <= r.number
    ensures InOrder(s + [r])
  {
  }

  lemma InOrderFront(s: seq<Record>)
    requires InOrder(s) && s != []
    ensures InOrder(s[..|s| - 1]) && forall x | x in s :: x.number <= s[|s| - 1].number
  {
  }

  lemma {:induction false} InsertKeepsOrder(s: seq<Record>, r: Record)
    requires InOrder(s)
    ensures InOrder(Insert(s, r)) && multiset(Insert(s, r)) == multiset(s) + multiset{r}
    ensures forall x | x in Insert(s, r) :: x == r || x in s
  {
    hide InOrder;
    if s != [] {
      InOrderFront(s);
    }
    if s != [] && s[|s| - 1].number > r.number {
      var front, last := s[..|s| - 1], s[|s| - 1];
      assert s == front + [last];
      InsertKeepsOrder(front, r);
      InOrderSnoc(Insert(front, r), last);
    } else {
      InOrderSnoc(s, r);
    }
  }

  lemma {:induction false} StableSortSorts(s: seq<Record>)
    ensures InOrder(StableSort(s)) && multiset(StableSort(s)) == multiset(s)
  {
    if s != [] {
      assert s == s[..|s| - 1] + [s[|s| - 1]];
      StableSortSorts(s[..|s| - 1]);
      InsertKeepsOrder(StableSort(s[..|s| - 1]), s[|s| - 1]);
    }
  }

  lemma {:induction false} SortedIsUnchanged(s: seq<Record>)
    requires InOrder(s)
    ensures StableSort(s) == s
  {
    if s != [] {
      var front := s[..|s| - 1];
      SortedIsUnchanged(front);
      assert front != [] ==> front[|front| - 1] == s[|s| - 2];
      assert s == front + [s[|s| - 1]];
    }
  }

  lemma NumberedSuffixInOrder(s: seq<Record>, all: seq<Record>)
    requires Suffix(s, all) && Numbered(all)
    ensures InOrder(s)
    ensures s != [] ==> s[|s| - 1].number == |all|
  {
  }

  // --------------------------------------------------------------------- queries

  datatype Query = Query(tail: int, stream: Option<Stream>, since: Option<int>) {
    predicate Matches(r: Record) {
      && (stream.Some? ==> r.stream == stream.value)
      && (since.Some? ==> r.time > since.value)
    }

    predicate Unfiltered() {
      stream.None? && since.None?
    }
  }

  function Matching(s: seq<Record>, q: Query): seq<Record> {
    if s == [] then []
    else Matching(s[..|s| - 1], q) + if q.Matches(s[|s| - 1]) then [s[|s| - 1]] else []
  }

  /** A positive tail keeps that many of the newest records. */
  function Newest(s: seq<Record>, tail: int): seq<Record> {
    if tail > 0 then Last(s, tail) else s
  }

  /** `out` are the records of `seen` at the places `picked`, in order. */
  ghost predicate Chosen(seen: seq<Record>, picked: seq<nat>, out: seq<Record>) {
    && |picked| == |out|
    && (forall k | 0 <= k < |out| :: picked[k] < |seen| && out[k] == seen[picked[k]])
    && (forall j, k | 0 <= j < k < |out| :: picked[j] < picked[k])
  }

  /** These are only records of the stream asked for and strictly newer than the time
      asked for, and all of these, or with a positive tail the newest of them. */
  ghost predicate Picks(q: Query, seen: seq<Record>, picked: seq<nat>, out: seq<Record>) {
    && Chosen(seen, picked, out)
    && (q.stream.Some? ==> forall r <- out :: r.stream == q.stream.value)
    && (q.since.Some? ==> forall r <- out :: r.time > q.since.value)
    && (q.tail > 0 ==> |out| <= q.tail)
    && (forall i | 0 <= i < |seen| && (q.stream.Some? ==> seen[i].stream == q.stream.value)
                   && (q.since.Some? ==> seen[i].time > q.since.value) ::
          i in picked || (0 < q.tail == |out| && i < picked[0]))
  }

  /** Where the matching records are. */
  ghost function Places(s: seq<Record>, q: Query): seq<nat> {
    if s == [] then []
    else Places(s[..|s| - 1], q) + if q.Matches(s[|s| - 1]) then [|s| - 1] else []
  }

  lemma {:induction false} PlacesMatch(s: seq<Record>, q: Query, i: nat)
    ensures i in Places(s, q) <==> i < |s| && q.Matches(s[i])
  {
    if s != [] {
      PlacesMatch(s[..|s| - 1], q, i);
    }
  }

  lemma AllPlacesMatch(s: seq<Record>, q: Query)
    ensures MatchingPlaces(q, s, Places(s, q))
  {
    hide Places;
    forall i: nat ensures i in Places(s, q) <==> i < |s| && q.Matches(s[i]) {
      PlacesMatch(s, q, i);
    }
  }

  lemma {:induction false} PlacesChosen(s: seq<Record>, q: Query)
    ensures Chosen(s, Places(s, q), Matching(s, q))
  {
    if s != [] {
      var front, last := s[..|s| - 1], s[|s| - 1];
      var places := Places(front, q);
      PlacesChosen(front, q);
      forall k | 0 <= k < |places| ensures places[k] < |front| {
        assert places[k] in places;
      }
    }
  }

  /** Leaving out the oldest of the places. */
  lemma ChosenTail(seen: seq<Record>, picked: seq<nat>, out: seq<Record>, cut: nat)
    requires Chosen(seen, picked, out) && cut < |out|
    ensures Chosen(seen, picked[cut..], out[cut..])
    ensures forall i <- picked :: i in picked[cut..] || i < picked[cut]
  {
    forall i <- picked ensures i in picked[cut..] || i < picked[cut] {
      var k :| 0 <= k < |picked| && picked[k] == i;
      assert k >= cut ==> picked[cut..][k - cut] == i;
    }
  }

  lemma ChosenMatch(seen: seq<Record>, q: Query, picked: seq<nat>, out: seq<Record>)
    requires Chosen(seen, picked, out) && forall i <- picked :: i < |seen| && q.Matches(seen[i])
    ensures q.stream.Some? ==> forall r <- out :: r.stream == q.stream.value
    ensures q.since.Some? ==> forall r <- out :: r.time > q.since.value
  {
    forall r <- out ensures q.Matches(r) {
      var k :| 0 <= k < |out| && out[k] == r;
      assert picked[k] in picked;
    }
  }

  ghost predicate MatchingPlaces(q: Query, seen: seq<Record>, places: seq<nat>) {
    forall i: nat :: i in places <==> i < |seen| && q.Matches(seen[i])
  }

  lemma WholePicks(q: Query, seen: seq<Record>, places: seq<nat>, out: seq<Record>)
    requires Chosen(seen, places, out) && MatchingPlaces(q, seen, places) && (q.tail > 0 ==> |out| <= q.tail)
    ensures Picks(q, seen, places, out)
  {
    hide Chosen;
    ChosenMatch(seen, q, places, out);
  }

  lemma NewestPicks(q: Query, seen: seq<Record>, places: seq<nat>, out: seq<Record>)
    requires Chosen(seen, places, out) && MatchingPlaces(q, seen, places) && 0 < q.tail < |out|
    ensures Picks(q, seen, places[|out| - q.tail..], out[|out| - q.tail..])
  {
    SameLength(seen, places, out);
    hide Chosen;
    var cut := |out| - q.tail;
    ChosenTail(seen, places, out, cut);
    assert forall i <- places[cut..] :: i in places;
    ChosenMatch(seen, q, places[cut..], out[cut..]);
  }

  /** The answer says what it should about the records a query looks at. */
  lemma AnswerPicks(seen: seq<Record>, q: Query) returns (picked: seq<nat>)
    ensures Picks(q, seen, picked, Newest(Matching(seen, q), q.tail))
  {
    hide Chosen, Places, Matching, MatchingPlaces, Picks;
    var all, out := Places(seen, q), Matching(seen, q);
    PlacesChosen(seen, q);
    SameLength(seen, all, out);
    AllPlacesMatch(seen, q);
    if q.tail > 0 && |out| > q.tail {
      NewestPicks(q, seen, all, out);
      picked := all[|out| - q.tail..];
    } else {
      WholePicks(q, seen, all, out);
      picked := all;
    }
  }

  lemma SameLength(seen: seq<Record>, picked: seq<nat>, out: seq<Record>)
    requires Chosen(seen, picked, out)
    ensures |picked| == |out|
  {
  }

  /** How many of the newest records a query looks at before it filters. */
  function Visible(tail: int, ringLen: nat, capacity: nat, retained: nat): nat {
    if ringLen == capacity && (tail == 0 || tail > ringLen)
    then Max(ringLen, Min(if tail == 0 then 4 * ringLen else tail, retained))
    else ringLen
  }

  /** What a query answers, given how much of the log `all` ring and files hold. */
  function Answer(all: seq<Record>, q: Query, ringLen: nat, capacity: nat, retained: nat): seq<Record> {
    Newest(Matching(Last(all, Visible(q.tail, ringLen, capacity, retained)), q), q.tail)
  }

  /** The lengths that ring and files of a log can have. */
  predicate Lengths(all: seq<Record>, ringLen: nat, capacity: nat, retained: nat) {
    && 0 < capacity && ringLen <= capacity && ringLen <= |all| && retained <= |all|
    && (ringLen < capacity ==> ringLen >= retained)
  }

  lemma {:induction false} UnfilteredMatchesAll(s: seq<Record>, q: Query)
    requires q.Unfiltered()
    ensures Matching(s, q) == s
  {
    if s != [] {
      UnfilteredMatchesAll(s[..|s| - 1], q);
    }
  }

  lemma {:induction false} MatchingKeepsSuffix(s: seq<Record>, all: seq<Record>, q: Query)
    requires Suffix(s, all)
    ensures Suffix(Matching(s, q), Matching(all, q))
  {
    if s != [] {
      assert s[|s| - 1] == all[|all| - 1];
      MatchingKeepsSuffix(s[..|s| - 1], all[..|all| - 1], q);
    }
  }

  /** Filtering happens after the source is chosen, so a filtered tail over the
      records seen is the filtered tail over the whole log exactly when enough of
      the records seen match, or none of the older ones does. */
  lemma FilteredTailExactly(seen: seq<Record>, all: seq<Record>, q: Query)
    requires Suffix(seen, all) && q.tail > 0
    ensures Newest(Matching(seen, q), q.tail) == Newest(Matching(all, q), q.tail)
       <==> |Matching(seen, q)| >= q.tail
            || forall r | r in all[..|all| - |seen|] :: !q.Matches(r)
  {
    MatchingKeepsSuffix(seen, all, q);
    var older := all[..|all| - |seen|];
    assert all == older + seen;
    MatchingConcat(older, seen, q);
    NoMatch(older, q);
    var few, many := Matching(seen, q), Matching(all, q);
    LastIsSuffix(few, q.tail);
    LastIsSuffix(many, q.tail);
    SuffixOfSuffix(Last(few, q.tail), few, many);
    if |Last(few, q.tail)| == |Last(many, q.tail)| {
      SuffixByLength(Last(few, q.tail), Last(many, q.tail), many);
    }
  }

  /** What a log answers that has just been opened on its files. */
  function AnswerWhenOpened(files: Files, all: seq<Record>, o: Options, q: Query): seq<Record> {
    var retained := |Joined(files, o.maxBackups)|;
    Answer(all, q, Min(retained, o.ringCapacity), o.ringCapacity, retained)
  }

  /** A log in one file, opened with a ring of one record. */
  lemma OneFile(all: seq<Record>) returns (files: Files, o: Options)
    requires Numbered(all)
    ensures Sound(files, all, o) && Normal(o) && o.ringCapacity == 1 && Joined(files, o.maxBackups) == all
  {
    files, o := map[0 := all], Options(Size(all) + 1, 0, 1);
  }

  /** A log of two records in which asking for the last error misses it. */
  lemma OlderErrorIsMissed() returns (files: Files, all: seq<Record>, o: Options, q: Query)
    ensures Sound(files, all, o) && Normal(o) && q == Query(1, Some(Stderr), None)
    ensures |all| == 2 && AnswerWhenOpened(files, all, o, q) == [] && Newest(Matching(all, q), q.tail) == [all[0]]
  {
    var failure, output := Record(1, Stderr, 0, "", 1), Record(2, Stdout, 0, "", 1);
    all, q := [failure, output], Query(1, Some(Stderr), None);
    files, o := OneFile(all);
    assert q.Matches(failure) && !q.Matches(output);
    assert Last(all, 1) == [output];
    NoMatch([output], q);
    assert all == [failure] + [output];
    MatchingConcat([failure], [output], q);
    assert [failure][..0] == [];
    assert Matching([failure], q) == [failure];
  }

  /** Without a filter, a tail of zero is answered from everything held exactly when the
      ring is not full or the files hold at most four rings. */
  lemma TailZeroExactly(all: seq<Record>, q: Query, ringLen: nat, capacity: nat, retained: nat)
    requires q.Unfiltered() && q.tail == 0 && Lengths(all, ringLen, capacity, retained)
    ensures Answer(all, q, ringLen, capacity, retained) == Last(all, Max(ringLen, retained))
       <==> ringLen < capacity || retained <= 4 * ringLen
  {
    UnfilteredMatchesAll(Last(all, Visible(0, ringLen, capacity, retained)), q);
  }

  /** A log of five records, all in its file, that answers with four. */
  lemma TailZeroIsLimited() returns (files: Files, all: seq<Record>, o: Options, q: Query)
    ensures Sound(files, all, o) && Normal(o) && q == Query(0, None, None) && Joined(files, o.maxBackups) == all
    ensures |all| == 5 && AnswerWhenOpened(files, all, o, q) == Last(all, 4)
  {
    all := seq(5, i requires 0 <= i < 5 => Record(i + 1, Stdout, 0, "", 1));
    q := Query(0, None, None);
    files, o := OneFile(all);
    UnfilteredMatchesAll(Last(all, 4), q);
  }

  lemma {:induction false} MatchingConcat(a: seq<Record>, b: seq<Record>, q: Query)
    ensures Matching(a + b, q) == Matching(a, q) + Matching(b, q)
  {
    if b == [] {
      assert a + b == a;
    } else {
      assert (a + b)[..|a + b| - 1] == a + b[..|b| - 1];
      MatchingConcat(a, b[..|b| - 1], q);
    }
  }

  lemma {:induction false} NoMatch(s: seq<Record>, q: Query)
    ensures Matching(s, q) == [] <==> forall r | r in s :: !q.Matches(r)
  {
    if s != [] {
      var front, last := s[..|s| - 1], s[|s| - 1];
      assert s == front + [last];
      NoMatch(front, q);
    }
  }

  /** Lists collected newest first, read oldest first. */
  function Flat(lists: seq<seq<Record>>): seq<Record> {
    if lists == [] then [] else Flat(lists[1..]) + lists[0]
  }

  lemma {:induction false} FlatSnoc(lists: seq<seq<Record>>, older: seq<Record>)
    ensures Flat(lists + [older]) == older + Flat(lists)
  {
    if lists == [] {
      assert [older][1..] == [];
      assert Flat([older]) == Flat([]) + older;
    } else {
      assert (lists + [older])[1..] == lists[1..] + [older];
      FlatSnoc(lists[1..], older);
    }
  }

  method Flatten(collected: seq<seq<Record>>) returns (out: seq<Record>)
    ensures out == Flat(collected)
  {
    out := [];
    assert collected[..|collected|] == collected;
    for j := |collected| downto 0
      invariant out + Flat(collected[..j]) == Flat(collected)
    {
      FlatSnoc(collected[..j], collected[j]);
      assert collected[..j + 1] == collected[..j] + [collected[j]];
      out := out + collected[j];
    }
  }

  method Filter(source: seq<Record>, q: Query) returns (out: seq<Record>)
    ensures out == Newest(Matching(source, q), q.tail)
  {
    out := [];
    for i := 0 to |source|
      invariant out == Matching(source[..i], q)
    {
      assert source[..i + 1][..i] == source[..i];
      if q.Matches(source[i]) {
        out := out + [source[i]];
      }
    }
    assert source[..|source|] == source;
    if q.tail > 0 && |out| > q.tail {
      out := out[|out| - q.tail..];
    }
  }

  /** Enough of the newest files give the newest records, already in order. */
  lemma SortedTail(read: seq<Record>, retained: seq<Record>, all: seq<Record>, limit: nat)
    requires Suffix(read, retained) && Suffix(retained, all) && Numbered(all)
    requires |read| >= limit || read == retained
    ensures StableSort(read) == read && Last(read, limit) == Last(retained, limit)
  {
    SuffixOfSuffix(read, retained, all);
    NumberedSuffixInOrder(read, all);
    SortedIsUnchanged(read);
  }

  function ChooseSource(recent: seq<Record>, retained: seq<Record>, tail: int, capacity: nat): seq<Record> {
    if |recent| == capacity && (tail == 0 || tail > |recent|) then
      var fromFile := Last(retained, if tail == 0 then |recent| * 4 else tail);
      if |fromFile| > |recent| then fromFile else recent
    else recent
  }

  /** Ring or files: either way a query looks at the newest records of the log. */
  lemma SourceIsNewest(recent: seq<Record>, retained: seq<Record>, all: seq<Record>, tail: int, capacity: nat)
    requires Suffix(recent, all) && Suffix(retained, all) && |recent| <= capacity
    ensures ChooseSource(recent, retained, tail, capacity)
         == Last(all, Visible(tail, |recent|, capacity, |retained|))
  {
    var seen := Visible(tail, |recent|, capacity, |retained|);
    var source := ChooseSource(recent, retained, tail, capacity);
    LastIsSuffix(all, seen);
    if source != recent {
      LastIsSuffix(retained, if tail == 0 then |recent| * 4 else tail);
      SuffixOfSuffix(source, retained, all);
    }
    SuffixByLength(source, Last(all, seen), all);
  }

  lemma UnfilteredTail(all: seq<Record>, q: Query, ringLen: nat, capacity: nat, retained: nat)
    requires q.Unfiltered() && q.tail > 0 && Lengths(all, ringLen, capacity, retained)
    ensures Answer(all, q, ringLen, capacity, retained) == Last(all, Min(q.tail, Max(ringLen, retained)))
  {
    UnfilteredMatchesAll(Last(all, Visible(q.tail, ringLen, capacity, retained)), q);
  }

  /** Reading back as many records as the ring holds finds the newest number, and
      all that is retained unless the ring is full. */
  lemma WarmRecords(files: Files, all: seq<Record>, o: Options)
    requires Sound(files, all, o) && Normal(o)
    ensures var records := Last(Joined(files, o.maxBackups), o.ringCapacity);
            && |records| <= o.ringCapacity && InOrder(records) && Suffix(records, all)
            && |all| == (if records == [] then 0 else records[|records| - 1].number)
            && (|records| < o.ringCapacity ==> |records| >= |Joined(files, o.maxBackups)|)
  {
    hide Joined;
    var retained := Joined(files, o.maxBackups);
    LastIsSuffix(retained, o.ringCapacity);
    SuffixOfSuffix(Last(retained, o.ringCapacity), retained, all);
    NumberedSuffixInOrder(Last(retained, o.ringCapacity), all);
    RetainedEndsInActiveFile(files, o.maxBackups);
  }

  /** The ring still ends the log, and still holds what is retained unless it is full. */
  lemma RingAfterAppend(recent: seq<Record>, retained: seq<Record>, after: seq<Record>, all: seq<Record>,
                        r: Record, capacity: nat)
    requires Suffix(recent, all) && |recent| <= capacity && (|recent| < capacity ==> |recent| >= |retained|)
    requires Suffix(after, retained + [r])
    ensures var next := Last(recent + [r], capacity);
            Suffix(next, all + [r]) && (|next| < capacity ==> |next| >= |after|)
  {
  }

  lemma SoundRetains(files: Files, all: seq<Record>, o: Options)
    requires Sound(files, all, o)
    ensures Retains(files, all, o) && Suffix(Joined(files, o.maxBackups), Joined(files, o.maxBackups))
  {
  }

  /** Writing one record, into files that have perhaps been rotated. */
  lemma WriteGrows(files: Files, all: seq<Record>, o: Options, r: Record, retained: seq<Record>)
    requires Retains(files, all, o) && r.number == |all| + 1 && Suffix(Joined(files, o.maxBackups), retained)
    requires Size(File(files, 0)) + r.bytes <= o.maxSize || File(files, 0) == []
    ensures var next := Written(files, r);
            && Sound(next, all + [r], o) && Size(File(next, 0)) == Size(File(files, 0)) + r.bytes
            && Joined(next, o.maxBackups) == Joined(files, o.maxBackups) + [r]
            && Joined(next, o.maxBackups) != [] && Suffix(Joined(next, o.maxBackups), retained + [r])
  {
    hide Joined, Size, Sound, Retains;
    WriteIsSound(files, all, o, r);
    WriteJoins(files, o.maxBackups, r);
    SuffixGrows(Joined(files, o.maxBackups), retained, r);
    SizeSnoc(File(files, 0), r);
  }

  lemma StaysSound(files: Files, all: seq<Record>, o: Options)
    requires Sound(files, all, o)
    ensures Sound(files[0 := File(files, 0)], all, o)
  {
    OpenRetains(files, all, o);
  }

  // ------------------------------------------------------------- the service log

  method NewRing(capacity: nat) returns (ring: array<Record>)
    ensures fresh(ring) && ring.Length == capacity
  {
    ring := new Record[capacity];
  }

  class ServiceLog {
    const disk: Disk
    const opts: Options
    var size: nat
    var last: nat
    var ring: array<Record>
    var ringNext: nat
    var ringLen: nat
    var closed: bool

    ghost predicate RingShaped()
      reads `ring, `ringNext, `ringLen
    {
      && ring.Length == opts.ringCapacity && ringNext < ring.Length && ringLen <= ring.Length
    }

    ghost function Recent(): seq<Record>
      requires RingShaped()
      reads `ring, `ringNext, `ringLen, ring
    {
      Window(ring[..], ringNext, ringLen)
    }

    /** The records that are still in the files. */
    ghost function Retained(): seq<Record>
      reads disk`files
    {
      Joined(disk.files, opts.maxBackups)
    }

    /** Files, ring, size and counter all describe the one list `disk.all`. */
    ghost predicate Valid()
      reads this, disk, ring
    {
      && Normal(opts) && RingShaped()
      && Sound(disk.files, disk.all, opts)
      && size == Size(File(disk.files, 0))
      && last == |disk.all|
      && Suffix(Recent(), disk.all)
      && (ringLen < ring.Length ==> ringLen >= |Retained()|)
    }

    /** Opens the log of a service, with whatever an earlier daemon left behind. */
    constructor (disk: Disk, opts: Options)
      requires Normal(opts) && Sound(disk.files, disk.all, opts)
      modifies disk`files
      ensures this.disk == disk && this.opts == opts && !closed
      ensures RingShaped() && Valid() && fresh(ring)
      ensures Joined(disk.files, opts.maxBackups) == old(Joined(disk.files, opts.maxBackups))
      ensures Recent() == Last(Joined(disk.files, opts.maxBackups), opts.ringCapacity)
    {
      hide *;
      this.disk, this.opts, closed := disk, opts, false;
      size, last, ringNext, ringLen := 0, 0, 0, 0;
      var slots := NewRing(opts.ringCapacity);
      ring := slots;
      new;
      Load();
    }

    /** Opens the active file and warms the ring from disk. */
    method Load()
      requires Normal(opts) && ring.Length == opts.ringCapacity && ringNext == 0 && ringLen == 0 && last == 0
      requires Sound(disk.files, disk.all, opts)
      modifies this`size, this`last, this`ringNext, this`ringLen, ring, disk`files
      ensures RingShaped() && Valid()
      ensures Joined(disk.files, opts.maxBackups) == old(Joined(disk.files, opts.maxBackups))
      ensures Recent() == Last(Joined(disk.files, opts.maxBackups), opts.ringCapacity)
    {
      hide Sound, Joined, Window, Size, Suffix, Last;
      StaysSound(disk.files, disk.all, opts);
      OpenFile();
      WarmRing();
    }

    method OpenFile()
      modifies this`size, disk`files
      ensures disk.files == old(disk.files)[0 := File(old(disk.files), 0)]
      ensures size == Size(File(disk.files, 0))
      ensures Retained() == old(Retained())
      ensures old(Retains(disk.files, disk.all, opts)) ==> Retains(disk.files, disk.all, opts)
    {
      hide Retains, Joined;
      OpenJoins(disk.files, opts.maxBackups);
      if Retains(disk.files, disk.all, opts) {
        OpenRetains(disk.files, disk.all, opts);
      }
      disk.Open();
      size := Size(disk.files[0]);
    }

    method WarmRing()
      requires Normal(opts) && RingShaped() && ringLen == 0 && last == 0
      requires Sound(disk.files, disk.all, opts)
      requires size == Size(File(disk.files, 0))
      modifies this`last, this`ringNext, this`ringLen, ring
      ensures Valid()
      ensures Recent() == Last(Retained(), opts.ringCapacity)
    {
      hide Sound, Joined, Window, Size, Suffix, InOrder, Last;
      var records := ReadFileTail(opts.ringCapacity);
      WarmRecords(disk.files, disk.all, opts);
      PushAll(records);
    }

    /** Fills an empty ring and carries on counting from the newest record. */
    method PushAll(records: seq<Record>)
      requires RingShaped() && ringLen == 0 && last == 0 && 0 < ring.Length
      requires |records| <= ring.Length && InOrder(records)
      modifies this`last, this`ringNext, this`ringLen, ring
      ensures RingShaped() && Recent() == records
      ensures last == if records == [] then 0 else records[|records| - 1].number
    {
      hide Window;
      for i := 0 to |records|
        invariant RingShaped() && Recent() == records[..i]
        invariant last == if i == 0 then 0 else records[i - 1].number
      {
        if records[i].number > last {
          last := records[i].number;
        }
        PushRing(records[i]);
        assert records[..i + 1] == records[..i] + [records[i]];
      }
      assert records[..|records|] == records;
    }

    method PushRing(r: Record)
      requires RingShaped() && ring.Length > 0
      modifies ring, this`ringNext, this`ringLen
      ensures RingShaped()
      ensures Recent() == Last(old(Recent()) + [r], ring.Length)
    {
      hide Window, Last;
      PushAppends(ring[..], ringNext, ringLen, r);
      ring[ringNext] := r;
      assert ring[..] == old(ring[..])[ringNext := r];
      ringNext := (ringNext + 1) % ring.Length;
      if ringLen < ring.Length {
        ringLen := ringLen + 1;
      }
    }

    method RingSnapshot() returns (out: seq<Record>)
      requires RingShaped() && ring.Length > 0
      ensures out == Recent()
    {
      out := [];
      var start := (ringNext - ringLen + ring.Length) % ring.Length;
      WrapAround(ringNext - ringLen + ring.Length, ring.Length);
      for i := 0 to ringLen
        invariant out == Recent()[..i]
      {
        WrapAround(start + i, ring.Length);
        WrapAround(ringNext - ringLen + ring.Length + i, ring.Length);
        out := out + [ring[(start + i) % ring.Length]];
      }
    }

    /** Appends one record, unless the log is closed. */
    method Append(stream: Stream, message: string, time: int, bytes: nat) returns (r: Record)
      requires Valid()
      modifies this`last, this`ringNext, this`ringLen, this`size, ring, disk
      ensures Valid()
      ensures closed ==> disk.all == old(disk.all) && disk.files == old(disk.files) && Recent() == old(Recent())
      ensures closed ==> r.number == 0 && r.time == 0 && r.message == "" && r.bytes == 0
      ensures !closed ==> r == Record(old(|disk.all|) + 1, stream, time, message, bytes)
      ensures !closed ==> disk.all == old(disk.all) + [r]
      ensures !closed ==> Recent() == Last(old(Recent()) + [r], opts.ringCapacity)
      ensures !closed ==> Retained() != [] && Suffix(Retained(), old(Retained()) + [r])
      ensures !closed && old(size) + bytes <= opts.maxSize ==> Retained() == old(Retained()) + [r]
      ensures !closed && old(size) + bytes > opts.maxSize ==>
                Retained() == old(WithoutOldest(disk.files, opts.maxBackups)) + [r]
    {
      hide Joined, Sound, Window, Size, File, Suffix, Last, Retained, Normal;
      if closed {
        return NO_RECORD;
      }
      last := last + 1;
      r := Record(last, stream, time, message, bytes);
      ghost var recent, retained, all := Recent(), Retained(), disk.all;
      PushRing(r);
      WriteRecord(r);
      RingAfterAppend(recent, retained, Retained(), all, r, opts.ringCapacity);
    }

    /** Writes a record to the active file, rotating first when it does not fit. */
    method WriteRecord(r: Record)
      requires Sound(disk.files, disk.all, opts) && size == Size(File(disk.files, 0))
      requires r.number == |disk.all| + 1
      modifies this`size, disk
      ensures disk.all == old(disk.all) + [r]
      ensures Sound(disk.files, disk.all, opts) && size == Size(File(disk.files, 0))
      ensures Retained() != [] && Suffix(Retained(), old(Retained()) + [r])
      ensures old(size) + r.bytes <= opts.maxSize ==>
                disk.files == Written(old(disk.files), r) && Retained() == old(Retained()) + [r]
      ensures old(size) + r.bytes > opts.maxSize ==>
                Retained() == old(WithoutOldest(disk.files, opts.maxBackups)) + [r]
    {
      hide Sound, Retains, Joined, Size, File, Written, Suffix;
      ghost var retained := Retained();
      SoundRetains(disk.files, disk.all, opts);
      if size + r.bytes > opts.maxSize {
        Rotate();
      }
      WriteGrows(disk.files, disk.all, opts, r, retained);
      disk.files := Written(disk.files, r);
      disk.all := disk.all + [r];
      size := size + r.bytes;
    }

    method Rotate()
      requires Retains(disk.files, disk.all, opts)
      modifies this`size, disk`files
      ensures Retains(disk.files, disk.all, opts)
      ensures File(disk.files, 0) == [] && size == Size(File(disk.files, 0)) == 0
      ensures Suffix(Retained(), old(Retained()))
      ensures Retained() == old(WithoutOldest(disk.files, opts.maxBackups))
    {
      hide Shifted;
      ghost var before := disk.files;
      disk.RotateFiles(opts.maxBackups);
      RotateRetains(before, disk.files, disk.all, opts);
      ShiftJoins(before, disk.files, opts.maxBackups, opts.maxBackups);
      if opts.maxBackups > 0 {
        NewerFilesAreSuffix(before, opts.maxBackups - 1, opts.maxBackups);
      }
      OpenFile();
    }

    /** A closed log still answers queries. */
    method Close()
      requires Valid()
      modifies this`closed
      ensures closed && Valid()
    {
      closed := true;
    }

    /** Reads files newest first until there are enough records. */
    method CollectFiles(limit: nat) returns (collected: seq<seq<Record>>)
      requires limit > 0
      ensures Suffix(Flat(collected), Retained())
      ensures |Flat(collected)| >= limit || Flat(collected) == Retained()
    {
      hide Sound;
      collected := [];
      var total := 0;
      var i := 0;
      while i <= opts.maxBackups
        invariant 0 <= i <= opts.maxBackups + 1
        invariant Flat(collected) == if i == 0 then [] else Joined(disk.files, i - 1)
        invariant total == |Flat(collected)|
      {
        var records := if i in disk.files then disk.files[i] else [];
        i := i + 1;
        if records == [] {
          continue;
        }
        FlatSnoc(collected, records);
        collected := collected + [records];
        total := total + |records|;
        if total >= limit {
          break;
        }
      }
      NewerFilesAreSuffix(disk.files, i - 1, opts.maxBackups);
    }

    /** The newest `limit` records of the files. */
    method ReadFileTail(limit: int) returns (out: seq<Record>)
      requires Sound(disk.files, disk.all, opts)
      ensures out == if limit <= 0 then [] else Last(Retained(), limit)
    {
      hide Joined, Bounded, Numbered, Flat, StableSort, Suffix;
      if limit <= 0 {
        return [];
      }
      var collected := CollectFiles(limit);
      out := Flatten(collected);
      SortedTail(out, Retained(), disk.all, limit);
      out := StableSort(out);
      if |out| > limit {
        out := out[|out| - limit..];
      }
    }

    /** The query in ascending order of records.  Without a filter a positive tail is answered
        from everything the ring or the files still hold; a tail of zero is so only up to
        four rings. */
    method History(q: Query) returns (out: seq<Record>)
      requires Valid()
      ensures out == Answer(disk.all, q, ringLen, ring.Length, |Retained()|)
      ensures exists picked ::
                Picks(q, Last(disk.all, Visible(q.tail, ringLen, ring.Length, |Retained()|)), picked, out)
      ensures q.Unfiltered() && q.tail > 0 ==>
                out == Last(disk.all, Min(q.tail, Max(ringLen, |Retained()|)))
      ensures q.Unfiltered() && q.tail == 0 ==>
                (out == Last(disk.all, Max(ringLen, |Retained()|)) <==>
                 ringLen < ring.Length || |Retained()| <= 4 * ringLen)
    {
      hide Joined, Bounded, Window, Size, Numbered, Matching, Visible, Newest, Picks;
      ghost var picked := AnswerPicks(Last(disk.all, Visible(q.tail, ringLen, ring.Length, |Retained()|)), q);
      var recent := RingSnapshot();
      var ringHoldsEverything := ringLen < ring.Length;
      var source := recent;
      var needMore := q.tail == 0 || q.tail > |recent|;
      if !ringHoldsEverything && needMore {
        var limit := q.tail;
        if limit == 0 {
          limit := |recent| * 4;
        }
        var fromFile := ReadFileTail(limit);
        if |fromFile| > |recent| {
          source := fromFile;
        }
      }
      SourceIsNewest(recent, Retained(), disk.all, q.tail, ring.Length);
      out := Filter(source, q);
      if q.Unfiltered() && q.tail > 0 {
        UnfilteredTail(disk.all, q, ringLen, ring.Length, |Retained()|);
      }
      if q.Unfiltered() && q.tail == 0 {
        TailZeroExactly(disk.all, q, ringLen, ring.Length, |Retained()|);
      }
    }

    /** The newest stderr records of those a tail query looks at, 20 by default. */
    method LastErrors(limit: int) returns (out: seq<Record>)
      requires Valid()
      ensures var tail := if limit <= 0 then 20 else limit;
              && out == Answer(disk.all, Query(tail, Some(Stderr), None), ringLen, ring.Length, |Retained()|)
              && exists picked :: Picks(Query(tail, Some(Stderr), None),
                                        Last(disk.all, Visible(tail, ringLen, ring.Length, |Retained()|)), picked, out)
    {
      var tail := if limit <= 0 then 20 else limit;
      out := History(Query(tail, Some(Stderr), None));
    }
  }
}

/**
 * The transcoder supervisor's heartbeat table: an insertion-ordered map from
 * conduit path to the second (Time.now.to_i) the conduit was last heard from.
 * It is a sequence of entries whose paths are pairwise distinct; the order of
 * the sequence is the Hash's key order.
 */
module HeartbeatTable {
  import opened Messages

  /** Entries younger than this many seconds survive pruning. */
  const PruneAge: int := 20
  /** An entry older than this many seconds makes the data stale. */
  const StaleAge: int := 20

  datatype Beat = Beat(path: string, at: int)

  type Table = seq<Beat>

  function Keys(t: Table): seq<string> {
    seq(|t|, i requires 0 <= i < |t| => t[i].path)
  }

  predicate DistinctKeys(t: Table) {
    forall i, j :: 0 <= i < j < |t| ==> t[i].path != t[j].path
  }

  /** `@heartbeats[p]`: the time recorded for `p`, if any. */
  function Lookup(t: Table, p: string): Option<int> {
    if t == [] then None
    else if t[0].path == p then Some(t[0].at)
    else Lookup(t[1..], p)
  }

  /** `@heartbeats[p] = now`: overwrite in place, or append a new key. */
  function SetBeat(t: Table, p: string, now: int): Table {
    if t == [] then [Beat(p, now)]
    else if t[0].path == p then [Beat(p, now)] + t[1..]
    else [t[0]] + SetBeat(t[1..], p, now)
  }

  lemma {:induction false} SetBeatExisting(t: Table, p: string, now: int, k: nat)
    requires DistinctKeys(t) && k < |t| && t[k].path == p
    ensures SetBeat(t, p, now) == t[k := Beat(p, now)]
  {
    if k > 0 {
      assert t[0].path != p;
      SetBeatExisting(t[1..], p, now, k - 1);
      assert t[1..][k - 1 := Beat(p, now)] == t[k := Beat(p, now)][1..];
    }
  }

  lemma {:induction false} SetBeatNew(t: Table, p: string, now: int)
    requires p !in Keys(t)
    ensures SetBeat(t, p, now) == t + [Beat(p, now)]
  {
    if t != [] {
      assert t[0].path == Keys(t)[0];
      assert Keys(t[1..]) == Keys(t)[1..];
      SetBeatNew(t[1..], p, now);
      assert t == [t[0]] + t[1..];
    }
  }

  /**
   * Heartbeating `p` records `now` for `p`, leaves the time of every other
   * path as it was, keeps an existing key where it was and appends a new one.
   */
  lemma SetBeatSpec(t: Table, p: string, now: int)
    requires DistinctKeys(t)
    ensures DistinctKeys(SetBeat(t, p, now))
    ensures Keys(SetBeat(t, p, now)) == if p in Keys(t) then Keys(t) else Keys(t) + [p]
    ensures forall q :: Lookup(SetBeat(t, p, now), q) == if q == p then Some(now) else Lookup(t, q)
  {
    var r := SetBeat(t, p, now);
    if p in Keys(t) {
      var k :| 0 <= k < |t| && Keys(t)[k] == p;
      SetBeatExisting(t, p, now, k);
      assert Keys(r) == Keys(t);
      forall q ensures Lookup(r, q) == if q == p then Some(now) else Lookup(t, q) {
        LookupAt(r, k);
        LookupAt(t, k);
        if q != p { LookupOther(t, k, q, now); }
      }
    } else {
      SetBeatNew(t, p, now);
      assert Keys(r) == Keys(t) + [p];
      forall q ensures Lookup(r, q) == if q == p then Some(now) else Lookup(t, q) {
        LookupAppend(t, Beat(p, now), q);
      }
    }
  }

  lemma {:induction false} LookupAt(t: Table, k: nat)
    requires DistinctKeys(t) && k < |t|
    ensures Lookup(t, t[k].path) == Some(t[k].at)
  {
    if k > 0 {
      LookupAt(t[1..], k - 1);
    }
  }

  lemma {:induction false} LookupOther(t: Table, k: nat, q: string, now: int)
    requires k < |t| && q != t[k].path
    ensures Lookup(t[k := Beat(t[k].path, now)], q) == Lookup(t, q)
  {
    if t[0].path != q && k > 0 {
      LookupOther(t[1..], k - 1, q, now);
      assert t[k := Beat(t[k].path, now)][1..] == t[1..][k - 1 := Beat(t[k].path, now)];
    }
  }

  lemma {:induction false} LookupAppend(t: Table, b: Beat, q: string)
    requires b.path !in Keys(t)
    ensures Lookup(t + [b], q) == if q == b.path then Some(b.at) else Lookup(t, q)
  {
    if t == [] {
    } else {
      assert (t + [b])[1..] == t[1..] + [b];
      assert t[0].path == Keys(t)[0];
      assert Keys(t[1..]) == Keys(t)[1..];
      LookupAppend(t[1..], b, q);
    }
  }

  /** `Hash#select`: the entries satisfying `keep`, in table order. */
  function Select(t: Table, keep: Beat -> bool): Table {
    if t == [] then []
    else (if keep(t[0]) then [t[0]] else []) + Select(t[1..], keep)
  }

  /** The first select of `clean_heartbeats`: entries heard from less than 20 seconds ago. */
  function KeepFresh(t: Table, now: int): Table {
    Select(t, (b: Beat) => now - b.at < PruneAge)
  }

  /** The second select of `clean_heartbeats`: entries whose conduit exists on disk. */
  function KeepExisting(t: Table, fs: set<string>): Table {
    Select(t, (b: Beat) => b.path in fs)
  }

  /** `clean_heartbeats` with the clock reading `now` and the files `fs`. */
  function Prune(t: Table, now: int, fs: set<string>): Table {
    KeepExisting(KeepFresh(t, now), fs)
  }

  /** `stopped_getting_data?`: some entry was last heard from more than 20 seconds ago. */
  predicate Stale(t: Table, now: int) {
    exists i :: 0 <= i < |t| && now - t[i].at > StaleAge
  }

  /** `r` lists some of the elements of `t`, in the order they have in `t`. */
  ghost predicate IsSubsequence(r: Table, t: Table) {
    if r == [] then true
    else if t == [] then false
    else if r[0] == t[0] then IsSubsequence(r[1..], t[1..])
    else IsSubsequence(r, t[1..])
  }

  lemma {:induction false} SelectMember(t: Table, keep: Beat -> bool, b: Beat)
    ensures b in Select(t, keep) <==> b in t && keep(b)
  {
    if t != [] {
      SelectMember(t[1..], keep, b);
      assert b in t <==> b == t[0] || b in t[1..];
    }
  }

  lemma {:induction false} SelectSubsequence(t: Table, keep: Beat -> bool)
    ensures IsSubsequence(Select(t, keep), t)
  {
    if t != [] {
      SelectSubsequence(t[1..], keep);
      if keep(t[0]) {
        assert Select(t, keep)[1..] == Select(t[1..], keep);
      } else {
        assert Select(t, keep) == Select(t[1..], keep);
        SubsequenceSkip(Select(t[1..], keep), t);
      }
    }
  }

  lemma {:induction false} SubsequenceSkip(r: Table, t: Table)
    requires t != [] && IsSubsequence(r, t[1..])
    ensures IsSubsequence(r, t)
    decreases |t|, 0
  {
    if r != [] && r[0] == t[0] {
      SubsequenceTail(r, t[1..]);
    }
  }

  lemma {:induction false} SubsequenceTail(r: Table, t: Table)
    requires r != [] && IsSubsequence(r, t)
    ensures IsSubsequence(r[1..], t)
    decreases |t|, 1
  {
    if r[1..] != [] {
      if r[0] != t[0] {
        SubsequenceTail(r, t[1..]);
      }
      SubsequenceSkip(r[1..], t);
    }
  }

  lemma {:induction false} SelectAll(t: Table, keep: Beat -> bool)
    requires forall i :: 0 <= i < |t| ==> keep(t[i])
    ensures Select(t, keep) == t
  {
    if t != [] {
      SelectAll(t[1..], keep);
    }
  }

  lemma {:induction false} SelectDistinct(t: Table, keep: Beat -> bool)
    requires DistinctKeys(t)
    ensures DistinctKeys(Select(t, keep))
  {
    if t != [] {
      SelectDistinct(t[1..], keep);
      var rest := Select(t[1..], keep);
      forall j | 0 <= j < |rest| ensures rest[j].path != t[0].path {
        SelectMember(t[1..], keep, rest[j]);
      }
    }
  }

  lemma {:induction false} SelectAppend(a: Table, b: Table, keep: Beat -> bool)
    ensures Select(a + b, keep) == Select(a, keep) + Select(b, keep)
  {
    if a == [] {
      assert a + b == b;
    } else {
      assert (a + b)[0] == a[0] && (a + b)[1..] == a[1..] + b;
      SelectAppend(a[1..], b, keep);
      var head := if keep(a[0]) then [a[0]] else [];
      calc {
        Select(a + b, keep);
        head + Select(a[1..] + b, keep);
        head + (Select(a[1..], keep) + Select(b, keep));
        (head + Select(a[1..], keep)) + Select(b, keep);
      }
    }
  }

  /**
   * The two selects of `clean_heartbeats` keep exactly the entries that are
   * younger than 20 seconds and whose conduit exists, in table order.
   */
  lemma {:induction false} PruneKeeps(t: Table, now: int, fs: set<string>)
    ensures Prune(t, now, fs) == Select(t, (b: Beat) => now - b.at < PruneAge && b.path in fs)
    ensures IsSubsequence(Prune(t, now, fs), t)
    ensures forall b :: b in Prune(t, now, fs) <==> b in t && now - b.at < PruneAge && b.path in fs
    ensures DistinctKeys(t) ==> DistinctKeys(Prune(t, now, fs))
  {
    var both := (b: Beat) => now - b.at < PruneAge && b.path in fs;
    PruneIsSelect(t, now, fs);
    SelectSubsequence(t, both);
    forall b ensures b in Prune(t, now, fs) <==> b in t && now - b.at < PruneAge && b.path in fs {
      SelectMember(t, both, b);
    }
    if DistinctKeys(t) {
      SelectDistinct(t, both);
    }
  }

  lemma {:induction false} PruneIsSelect(t: Table, now: int, fs: set<string>)
    ensures Prune(t, now, fs) == Select(t, (b: Beat) => now - b.at < PruneAge && b.path in fs)
  {
    if t != [] {
      PruneIsSelect(t[1..], now, fs);
      var head := if now - t[0].at < PruneAge then [t[0]] else [];
      assert KeepFresh(t, now) == head + KeepFresh(t[1..], now);
      SelectAppend(head, KeepFresh(t[1..], now), (b: Beat) => b.path in fs);
    }
  }

  /** Pruning twice at the same instant against the same files equals pruning once. */
  lemma PruneIdempotent(t: Table, now: int, fs: set<string>)
    ensures Prune(Prune(t, now, fs), now, fs) == Prune(t, now, fs)
  {
    var p := Prune(t, now, fs);
    PruneKeeps(t, now, fs);
    PruneKeeps(p, now, fs);
    forall i | 0 <= i < |p| ensures now - p[i].at < PruneAge && p[i].path in fs {
      assert p[i] in p;
    }
    SelectAll(p, (b: Beat) => now - b.at < PruneAge && b.path in fs);
  }

  /** An entry that is fresh and whose conduit exists survives pruning; a table of such entries is left as it is. */
  lemma PruneKeepsLive(t: Table, now: int, fs: set<string>)
    requires forall i :: 0 <= i < |t| ==> now - t[i].at < PruneAge && t[i].path in fs
    ensures Prune(t, now, fs) == t
  {
    PruneKeeps(t, now, fs);
    SelectAll(t, (b: Beat) => now - b.at < PruneAge && b.path in fs);
  }

  /** A table every entry of which is 20 seconds old or older prunes to nothing. */
  lemma {:induction false} PruneDropsOld(t: Table, now: int, fs: set<string>)
    requires forall i :: 0 <= i < |t| ==> now - t[i].at >= PruneAge
    ensures Prune(t, now, fs) == []
  {
    if t != [] {
      PruneDropsOld(t[1..], now, fs);
      assert KeepFresh(t, now) == KeepFresh(t[1..], now);
    }
  }

  /**
   * Right after pruning, the data is not stale: pruning keeps ages below 20
   * while staleness needs an age above 20.
   */
  lemma PrunedNotStale(t: Table, now: int, fs: set<string>)
    ensures !Stale(Prune(t, now, fs), now)
  {
    var p := Prune(t, now, fs);
    PruneKeeps(t, now, fs);
    forall i | 0 <= i < |p| ensures now - p[i].at <= StaleAge {
      assert p[i] in p;
    }
  }
}

/** The on-disk records: one file per deployment, rewritten on every state change, and the two sweeps that bound how many
    finished ones are kept. */
module Store {
  import opened Contracts
  import opened Fsm

  const TERMINAL_RETENTION: real := 21600.0
  const TERMINAL_RECORDS_KEPT: nat := 200

  /** A deployment record: its identity, its state, and the handle that finds it again after a restart. An empty url or
      cluster id is no url or cluster id. */
  datatype Rec = Rec(
    servedName: string,
    modelId: string,
    nodes: set<string>,
    port: int,
    state: State,
    url: Option<string>,
    clusterId: Option<string>)
  {
    predicate Live() { !Terminal(state) }
  }

  datatype File = File(rec: Rec, mtime: real)

  type Files = map<string, File>

  /** A planned deployment has launched nothing worth finding again. */
  function Saved(files: Files, id: string, rec: Rec, now: real): Files {
    if Persisted(rec.state) then files[id := File(rec, now)] else files
  }

  function TerminalIds(files: Files): set<string> {
    set id | id in files && !files[id].rec.Live()
  }

  /** Settled at or before the cutoff. */
  function Expired(files: Files, cutoff: real): set<string> {
    set id | id in TerminalIds(files) && files[id].mtime <= cutoff
  }

  /** Python's order on strings. */
  predicate Above(a: string, b: string) {
    a != [] && (b == [] || b[0] < a[0] || (a[0] == b[0] && Above(a[1..], b[1..])))
  }

  /** Settled later; the id breaks ties. */
  predicate Newer(files: Files, a: string, b: string)
    requires a in files && b in files
  {
    files[b].mtime < files[a].mtime || (files[b].mtime == files[a].mtime && Above(a, b))
  }

  function NewerThan(files: Files, id: string): set<string>
    requires id in files
  {
    set other | other in TerminalIds(files) && Newer(files, other, id)
  }

  /** The terminal records with `keep` newer ones. */
  function Surplus(files: Files, keep: nat): set<string> {
    set id | id in TerminalIds(files) && keep <= |NewerThan(files, id)|
  }

  function Swept(files: Files, keep: nat): Files {
    files - Surplus(files, keep)
  }

  function Purged(files: Files, now: real): Files {
    Swept(files - Expired(files, now - TERMINAL_RETENTION), TERMINAL_RECORDS_KEPT)
  }

  class DeploymentStore {
    var files: Files

    constructor (files: Files)
      ensures this.files == files
    {
      this.files := files;
    }

    method Save(id: string, rec: Rec, now: real)
      modifies this
      ensures files == Saved(old(files), id, rec, now)
      ensures files == if rec.state == Planned then old(files) else old(files)[id := File(rec, now)]
    {
      if Persisted(rec.state) {
        files := files[id := File(rec, now)];
      }
    }

    method Delete(id: string)
      modifies this
      ensures files == old(files) - {id}
    {
      files := files - {id};
    }

    method PurgeExpired(retention: real, now: real) returns (removed: nat)
      modifies this
      ensures files == Swept(old(files) - Expired(old(files), now - retention), TERMINAL_RECORDS_KEPT)
      ensures removed == |old(files)| - |files|
    {
      hide Swept, Expired;
      var expired := DropExpired(now - retention);
      var surplus := PurgeSurplus(TERMINAL_RECORDS_KEPT);
      removed := expired + surplus;
    }

    method DropExpired(cutoff: real) returns (removed: nat)
      modifies this
      ensures files == old(files) - Expired(old(files), cutoff)
      ensures removed == |old(files)| - |files|
    {
      removed := 0;
      var paths := files.Keys;
      while paths != {}
        invariant paths <= files.Keys <= old(files).Keys
        invariant forall id | id in files :: files[id] == old(files)[id]
        invariant forall id | id in old(files) && id !in paths :: id in files <==> id !in Expired(old(files), cutoff)
        invariant removed == |old(files)| - |files|
        decreases |paths|
      {
        var id :| id in paths;
        paths := paths - {id};
        if cutoff < files[id].mtime || files[id].rec.Live() {
          continue;
        }
        MapLess(files, {id});
        Delete(id);
        removed := removed + 1;
      }
    }

    method PurgeSurplus(keep: nat) returns (removed: nat)
      modifies this
      ensures files == Swept(old(files), keep)
      ensures removed == |old(files)| - |files|
    {
      hide Newer, NewerThan, Surplus, TerminalIds;
      if |files| <= keep {
        NoSurplus(files, keep);
        return 0;
      }
      var terminal := ListTerminal();
      SurplusTerminal(files, keep);
      ElementsCount(terminal);
      var sorted := SortNewest(files, terminal);
      SortedNewest(files, terminal);
      if |terminal| <= keep {
        NoSurplus(files, keep);
        return 0;
      }
      SurplusIsTail(files, sorted, keep);
      removed := DeleteAll(sorted[keep..]);
    }

    method DeleteAll(ids: seq<string>) returns (removed: nat)
      requires Distinct(ids) && Elements(ids) <= files.Keys
      modifies this
      ensures files == old(files) - Elements(ids)
      ensures removed == |old(files)| - |files|
    {
      removed := 0;
      while removed < |ids|
        invariant removed <= |ids|
        invariant files == old(files) - Elements(ids[..removed])
        invariant |files| == |old(files)| - removed
      {
        OneMoreGone(old(files), ids, removed);
        MapLess(files, {ids[removed]});
        Delete(ids[removed]);
        removed := removed + 1;
      }
      assert ids[..removed] == ids;
    }

    method ListTerminal() returns (ids: seq<string>)
      ensures Elements(ids) == TerminalIds(files) && Distinct(ids)
    {
      ids := [];
      var paths := files.Keys;
      while paths != {}
        invariant paths <= files.Keys && Distinct(ids) && Elements(ids) !! paths
        invariant forall id <- files :: id in paths || (id in ids <==> !files[id].rec.Live())
        invariant Elements(ids) <= TerminalIds(files)
        decreases |paths|
      {
        var id :| id in paths;
        paths := paths - {id};
        if !files[id].rec.Live() {
          ids := ids + [id];
        }
      }
    }
  }

  function Elements(ids: seq<string>): set<string> {
    set id | id in ids
  }

  ghost predicate Distinct(ids: seq<string>) {
    forall i, j :: 0 <= i < j < |ids| ==> ids[i] != ids[j]
  }

  lemma OneMoreGone(files: Files, ids: seq<string>, k: nat)
    requires Distinct(ids) && Elements(ids) <= files.Keys && k < |ids|
    ensures files - Elements(ids[..k + 1]) == files - Elements(ids[..k]) - {ids[k]}
    ensures ids[k] in files - Elements(ids[..k])
  {
    assert ids[..k + 1] == ids[..k] + [ids[k]];
    assert Elements(ids[..k + 1]) == Elements(ids[..k]) + {ids[k]};
    assert ids[k] in Elements(ids);
  }

  lemma MapLess(files: Files, gone: set<string>)
    requires gone <= files.Keys
    ensures |files - gone| == |files| - |gone|
  {
    assert (files - gone).Keys == files.Keys - gone;
  }

  // ----- order

  lemma {:induction false} AboveTotal(a: string, b: string)
    ensures a != b ==> Above(a, b) || Above(b, a)
    ensures !(Above(a, b) && Above(b, a))
  {
    if a != [] && b != [] {
      AboveTotal(a[1..], b[1..]);
      assert a == [a[0]] + a[1..] && b == [b[0]] + b[1..];
    }
  }

  lemma {:induction false} AboveTransitive(a: string, b: string, c: string)
    requires Above(a, b) && Above(b, c)
    ensures Above(a, c)
  {
    if c != [] && a[0] == b[0] == c[0] {
      AboveTransitive(a[1..], b[1..], c[1..]);
    }
  }

  lemma NewerTransitive(files: Files, a: string, b: string, c: string)
    requires a in files && b in files && c in files && Newer(files, a, b) && Newer(files, b, c)
    ensures Newer(files, a, c)
  {
    if Above(a, b) && Above(b, c) {
      AboveTransitive(a, b, c);
    }
  }

  /** Newest first, by insertion. */
  function SortNewest(files: Files, ids: seq<string>): (r: seq<string>)
    requires Elements(ids) <= files.Keys
    ensures |r| == |ids| && forall x :: x in r <==> x in ids
  {
    if ids == [] then []
    else
      assert ids == ids[..|ids| - 1] + [ids[|ids| - 1]];
      assert Elements(ids[..|ids| - 1]) <= Elements(ids) && ids[|ids| - 1] in Elements(ids);
      Insert(files, SortNewest(files, ids[..|ids| - 1]), ids[|ids| - 1])
  }

  function Insert(files: Files, sorted: seq<string>, id: string): (r: seq<string>)
    requires id in files && forall i :: 0 <= i < |sorted| ==> sorted[i] in files
    ensures |r| == |sorted| + 1 && forall x :: x in r <==> x == id || x in sorted
  {
    if sorted == [] || Newer(files, id, sorted[0]) then [id] + sorted
    else
      assert forall x :: x in sorted <==> x == sorted[0] || x in sorted[1..];
      [sorted[0]] + Insert(files, sorted[1..], id)
  }

  ghost predicate NewestFirst(files: Files, ids: seq<string>) {
    && (forall i :: 0 <= i < |ids| ==> ids[i] in files)
    && forall i, j :: 0 <= i < j < |ids| ==> Newer(files, ids[i], ids[j])
  }

  lemma {:induction false} InsertNewest(files: Files, sorted: seq<string>, id: string)
    requires id in files && NewestFirst(files, sorted) && id !in sorted
    ensures NewestFirst(files, Insert(files, sorted, id))
  {
    hide Newer;
    if sorted == [] {
    } else if Newer(files, id, sorted[0]) {
      forall j | 0 <= j < |sorted| ensures Newer(files, id, sorted[j]) {
        if 0 < j {
          NewerTransitive(files, id, sorted[0], sorted[j]);
        }
      }
    } else {
      NewerTotal(files, id, sorted[0]);
      InsertNewest(files, sorted[1..], id);
      var rest := Insert(files, sorted[1..], id);
      forall j | 0 <= j < |rest| ensures Newer(files, sorted[0], rest[j]) {
        assert rest[j] in rest;
      }
    }
  }

  lemma NewerTotal(files: Files, a: string, b: string)
    requires a in files && b in files
    ensures a != b ==> Newer(files, a, b) || Newer(files, b, a)
    ensures !(Newer(files, a, b) && Newer(files, b, a))
  {
    AboveTotal(a, b);
  }

  lemma {:induction false} SortedNewest(files: Files, ids: seq<string>)
    requires Elements(ids) <= files.Keys && Distinct(ids)
    ensures NewestFirst(files, SortNewest(files, ids))
    ensures Elements(SortNewest(files, ids)) == Elements(ids) && |SortNewest(files, ids)| == |ids|
    decreases |ids|
  {
    hide Newer;
    if ids != [] {
      var front, last := ids[..|ids| - 1], ids[|ids| - 1];
      assert ids == front + [last];
      assert Elements(front) <= Elements(ids) && last in Elements(ids);
      SortedNewest(files, front);
      InsertNewest(files, SortNewest(files, front), last);
    }
  }

  /** Python's order, told by the first place where two strings part. */
  lemma {:induction false} AboveIs(a: string, b: string)
    ensures Above(a, b) <==> exists k :: 0 <= k <= |b| && k < |a| && a[..k] == b[..k] && (k == |b| || b[k] < a[k])
  {
    if a == [] {
    } else if b == [] {
      assert a[..0] == b[..0];
    } else if a[0] != b[0] {
      assert a[..0] == b[..0];
      forall k | 0 < k <= |b| && k < |a| ensures a[..k] != b[..k] {
        assert a[..k][0] == a[0] && b[..k][0] == b[0];
      }
    } else {
      AboveIs(a[1..], b[1..]);
      if k :| 0 <= k <= |b[1..]| && k < |a[1..]| && a[1..][..k] == b[1..][..k] && (k == |b[1..]| || b[1..][k] < a[1..][k]) {
        assert a[..k + 1] == [a[0]] + a[1..][..k] && b[..k + 1] == [b[0]] + b[1..][..k];
        assert k + 1 == |b| || b[k + 1] < a[k + 1];
      }
      if k :| 0 <= k <= |b| && k < |a| && a[..k] == b[..k] && (k == |b| || b[k] < a[k]) {
        assert 0 < k;
        assert a[1..][..k - 1] == a[..k][1..] && b[1..][..k - 1] == b[..k][1..];
        assert k - 1 == |b[1..]| || b[1..][k - 1] < a[1..][k - 1];
      }
    }
  }

  // ----- what the sweep keeps

  lemma {:induction false} ElementsCount(ids: seq<string>)
    requires Distinct(ids)
    ensures |Elements(ids)| == |ids|
  {
    if ids != [] {
      var front, last := ids[..|ids| - 1], ids[|ids| - 1];
      ElementsCount(front);
      assert ids == front + [last];
      assert Elements(ids) == Elements(front) + {last};
    } else {
      assert Elements(ids) == {};
    }
  }

  lemma NewestDistinct(files: Files, sorted: seq<string>)
    requires NewestFirst(files, sorted)
    ensures Distinct(sorted)
  {
    forall i, j | 0 <= i < j < |sorted| ensures sorted[i] != sorted[j] {
      NewerTotal(files, sorted[i], sorted[j]);
    }
  }

  /** In a newest-first list of the terminal records, as many are newer than one as stand before it. */
  lemma NewerCount(files: Files, sorted: seq<string>, k: nat)
    requires NewestFirst(files, sorted) && Elements(sorted) == TerminalIds(files) && k < |sorted|
    ensures |NewerThan(files, sorted[k])| == k
  {
    hide Newer;
    NewestDistinct(files, sorted);
    forall x ensures x in NewerThan(files, sorted[k]) <==> x in Elements(sorted[..k]) {
      if x in NewerThan(files, sorted[k]) {
        assert x in Elements(sorted);
        var i :| 0 <= i < |sorted| && sorted[i] == x;
        NewerTotal(files, x, sorted[k]);
      }
      if x in Elements(sorted[..k]) {
        assert x in Elements(sorted);
      }
    }
    assert NewerThan(files, sorted[k]) == Elements(sorted[..k]);
    ElementsCount(sorted[..k]);
  }

  lemma SurplusIsTail(files: Files, sorted: seq<string>, keep: nat)
    requires NewestFirst(files, sorted) && Elements(sorted) == TerminalIds(files) && keep <= |sorted|
    ensures Surplus(files, keep) == Elements(sorted[keep..])
    ensures Elements(sorted[keep..]) <= files.Keys && Distinct(sorted)
  {
    hide Newer, NewerThan;
    NewestDistinct(files, sorted);
    forall x ensures x in Surplus(files, keep) <==> x in Elements(sorted[keep..]) {
      if x in TerminalIds(files) {
        assert x in Elements(sorted);
        var i :| 0 <= i < |sorted| && sorted[i] == x;
        NewerCount(files, sorted, i);
        if keep <= i {
          assert sorted[keep..][i - keep] == x;
        }
      }
    }
  }

  lemma NoSurplus(files: Files, keep: nat)
    requires |TerminalIds(files)| <= keep || |files| <= keep
    ensures Surplus(files, keep) == {} && Swept(files, keep) == files
  {
    hide Newer;
    forall id | id in TerminalIds(files) ensures |NewerThan(files, id)| < keep {
      NewerTotal(files, id, id);
      assert NewerThan(files, id) < TerminalIds(files) <= files.Keys;
      Proper(NewerThan(files, id), TerminalIds(files));
      Subset(TerminalIds(files), files.Keys);
    }
  }

  lemma Subset(a: set<string>, b: set<string>)
    requires a <= b
    ensures |a| <= |b|
  {
    assert b == a + (b - a);
  }

  lemma Proper(a: set<string>, b: set<string>)
    requires a < b
    ensures |a| < |b|
  {
    var x :| x in b && x !in a;
    Subset(a, b - {x});
  }

  /** The sweep removes finished records only, leaves at most `keep` of them, removes none while there are no more than
      that, and every one it keeps settled later than every one it removes, or has the greater id. */
  lemma SweepKeepsNewest(files: Files, keep: nat)
    ensures forall id | id in files && files[id].rec.Live() :: id in Swept(files, keep)
    ensures |TerminalIds(Swept(files, keep))| == if |TerminalIds(files)| <= keep then |TerminalIds(files)| else keep
    ensures forall a, b | a in Swept(files, keep) && !files[a].rec.Live() && b in files && b !in Swept(files, keep) ::
      files[b].mtime < files[a].mtime || (files[b].mtime == files[a].mtime && Above(a, b))
  {
    NewestKept(files, keep);
    hide Surplus, Above;
    forall a, b | a in Swept(files, keep) && !files[a].rec.Live() && b in files && b !in Swept(files, keep) ensures Newer(files, a, b) {
      assert a in TerminalIds(Swept(files, keep)) && b in Surplus(files, keep);
    }
  }

  lemma NewestKept(files: Files, keep: nat)
    ensures forall id | id in files && files[id].rec.Live() :: id in Swept(files, keep)
    ensures |TerminalIds(Swept(files, keep))| == if |TerminalIds(files)| <= keep then |TerminalIds(files)| else keep
    ensures forall a, b | a in TerminalIds(Swept(files, keep)) && b in Surplus(files, keep) :: Newer(files, a, b)
  {
    hide Newer, Surplus;
    SurplusTerminal(files, keep);
    assert TerminalIds(Swept(files, keep)) == TerminalIds(files) - Surplus(files, keep);
    if |TerminalIds(files)| <= keep {
      NoSurplus(files, keep);
    } else {
      hide TerminalIds, Swept;
      KeptAndRemoved(files, keep);
    }
  }

  lemma KeptAndRemoved(files: Files, keep: nat)
    requires keep < |TerminalIds(files)|
    ensures |TerminalIds(files) - Surplus(files, keep)| == keep
    ensures Surplus(files, keep) <= TerminalIds(files) <= files.Keys
    ensures forall a, b | a in TerminalIds(files) - Surplus(files, keep) && b in Surplus(files, keep) :: Newer(files, a, b)
  {
    SurplusTerminal(files, keep);
    hide Newer, NewerThan, Surplus, TerminalIds;
    var ids := ListOf(TerminalIds(files));
    ElementsCount(ids);
    SortedNewest(files, ids);
    var sorted := SortNewest(files, ids);
    SurplusIsTail(files, sorted, keep);
    SplitAt(sorted, keep);
    ElementsCount(sorted[..keep]);
    forall a, b | a in Elements(sorted[..keep]) && b in Elements(sorted[keep..]) ensures Newer(files, a, b) {
      FrontNewer(files, sorted, keep, a, b);
    }
  }

  lemma FrontNewer(files: Files, sorted: seq<string>, keep: nat, a: string, b: string)
    requires NewestFirst(files, sorted) && keep <= |sorted| && a in sorted[..keep] && b in sorted[keep..]
    ensures a in files && b in files && Newer(files, a, b)
  {
    hide Newer;
    var i :| 0 <= i < keep && sorted[..keep][i] == a;
    var j :| 0 <= j < |sorted| - keep && sorted[keep..][j] == b;
    assert sorted[i] == a && sorted[keep + j] == b;
  }

  lemma SplitAt(ids: seq<string>, k: nat)
    requires Distinct(ids) && k <= |ids|
    ensures Elements(ids) - Elements(ids[k..]) == Elements(ids[..k])
  {
    assert ids == ids[..k] + ids[k..];
  }

  lemma SurplusTerminal(files: Files, keep: nat)
    ensures Surplus(files, keep) <= TerminalIds(files) <= files.Keys
  {}

  lemma {:induction false} ListOf(ids: set<string>) returns (list: seq<string>)
    ensures Elements(list) == ids && Distinct(list)
  {
    if ids == {} {
      list := [];
    } else {
      var id :| id in ids;
      var rest := ListOf(ids - {id});
      list := rest + [id];
      assert Elements(list) == Elements(rest) + {id};
    }
  }

  /** What a purge leaves: every live record, and of the finished ones those that settled within the last six hours and have
      fewer than two hundred such newer ones. */
  lemma PurgedIs(files: Files, now: real)
    ensures forall id | id in Purged(files, now) :: id in files && Purged(files, now)[id] == files[id]
    ensures forall id | id in files ::
      id in Purged(files, now) <==>
        files[id].rec.Live() || (now - 21600.0 < files[id].mtime && |NewerKept(files, now, id)| < 200)
  {
    var rest := files - Expired(files, now - TERMINAL_RETENTION);
    SurplusTerminal(rest, TERMINAL_RECORDS_KEPT);
    forall id | id in files && !files[id].rec.Live() && now - 21600.0 < files[id].mtime
      ensures id in rest && NewerThan(rest, id) == NewerKept(files, now, id)
    {}
  }

  /** The finished records that settled within the last six hours and are newer than this one. */
  function NewerKept(files: Files, now: real, id: string): set<string>
    requires id in files
  {
    set other | other in files && !files[other].rec.Live() && now - 21600.0 < files[other].mtime
                && (files[id].mtime < files[other].mtime || (files[other].mtime == files[id].mtime && Above(other, id)))
  }
}

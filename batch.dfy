/** The batch run: load the four stranger reference vectors, then for every
    row of the participant table compute the distances to the two strangers
    of the participant's sex and, optionally, to a named friend, writing them
    into the row and counting successes and failures. */
module Batch {
  import opened Outcomes
  import opened Arrays
  import opened Normaliser
  import opened Metric
  import opened Loader

  /** Reference keys and their files, in the order they are loaded. */
  const StrangerFiles: seq<(string, string)> := [
    ("fu1", "fu1_01_latent.pt"),
    ("fu2", "fu2_01_latent.pt"),
    ("mu1", "mu1_01_latent.pt"),
    ("mu2", "mu2_01_latent.pt")
  ]

  const StrangerKeys: set<string> := {"fu1", "fu2", "mu1", "mu2"}

  /** Load a file and normalise its array; any failure of either step is returned. */
  function LoadNormalised(disk: Disk, path: string): (r: Result<NdArray>)
    ensures r.Ok? ==> IsWPlus(r.value) && path in disk
    ensures path !in disk && HasSuffix(path, ".pt") ==> r == Err(FileNotFound(path))
  {
    match LoadLatent(disk, path)
    case Err(f) => Err(f)
    case Ok(w) => Preprocess(w)
  }

  // ---------------------------------------------------------------------------
  // Reference set

  predicate ReferencesLoadable(disk: Disk)
  {
    forall i | 0 <= i < |StrangerFiles| :: LoadNormalised(disk, StrangerFiles[i].1).Ok?
  }

  /** A reference set holds a W+ matrix under each of the four stranger keys and nothing else. */
  predicate ValidReferences(refs: map<string, NdArray>)
  {
    refs.Keys == StrangerKeys && forall k | k in refs :: IsWPlus(refs[k])
  }

  /** The map after loading the first `n` reference files. */
  function PartialReferences(disk: Disk, n: nat): map<string, NdArray>
    requires n <= |StrangerFiles|
    requires forall i | 0 <= i < n :: LoadNormalised(disk, StrangerFiles[i].1).Ok?
  {
    if n == 0 then map[]
    else PartialReferences(disk, n - 1)[StrangerFiles[n - 1].0 := LoadNormalised(disk, StrangerFiles[n - 1].1).value]
  }

  /** The reference set holding the four given matrices under their keys. */
  function ReferenceMap(fu1: NdArray, fu2: NdArray, mu1: NdArray, mu2: NdArray): (refs: map<string, NdArray>)
    requires IsWPlus(fu1) && IsWPlus(fu2) && IsWPlus(mu1) && IsWPlus(mu2)
    ensures ValidReferences(refs)
  {
    map["fu1" := fu1, "fu2" := fu2, "mu1" := mu1, "mu2" := mu2]
  }

  /** The reference set of a disk on which all four files load and normalise. */
  function References(disk: Disk): map<string, NdArray>
    requires ReferencesLoadable(disk)
  {
    ReferenceMap(LoadNormalised(disk, StrangerFiles[0].1).value, LoadNormalised(disk, StrangerFiles[1].1).value,
                 LoadNormalised(disk, StrangerFiles[2].1).value, LoadNormalised(disk, StrangerFiles[3].1).value)
  }

  /** Loading the four files one after another builds the reference set. */
  lemma PartialReferencesComplete(disk: Disk)
    requires ReferencesLoadable(disk)
    ensures PartialReferences(disk, |StrangerFiles|) == References(disk)
  {
    var refs := References(disk);
    assert PartialReferences(disk, 1) == map["fu1" := refs["fu1"]];
    assert PartialReferences(disk, 2) == map["fu1" := refs["fu1"], "fu2" := refs["fu2"]];
    assert PartialReferences(disk, 3) == map["fu1" := refs["fu1"], "fu2" := refs["fu2"], "mu1" := refs["mu1"]];
  }

  lemma StrangerFilesArePt(i: nat)
    requires i < |StrangerFiles|
    ensures HasSuffix(StrangerFiles[i].1, ".pt")
  {
  }

  /** The existence check run before anything is loaded: the first stranger
      file that does not exist, if any. */
  method FindMissingStrangerFile(disk: Disk) returns (missing: Option<string>)
    ensures missing.None? <==> forall i | 0 <= i < |StrangerFiles| :: StrangerFiles[i].1 in disk
    ensures missing.Some? ==> missing.value !in disk
    ensures missing.Some? ==> exists i | 0 <= i < |StrangerFiles| ::
      missing.value == StrangerFiles[i].1 && forall j | 0 <= j < i :: StrangerFiles[j].1 in disk
  {
    var i := 0;
    while i < |StrangerFiles|
      invariant 0 <= i <= |StrangerFiles|
      invariant forall j | 0 <= j < i :: StrangerFiles[j].1 in disk
    {
      if StrangerFiles[i].1 !in disk {
        return Some(StrangerFiles[i].1);
      }
      i := i + 1;
    }
    return None;
  }

  /** Stranger file `i` is the first, in loading order, that fails to load or
      normalise, and it fails with `f`. */
  predicate FirstStrangerFailure(disk: Disk, i: int, f: Failure)
  {
    0 <= i < |StrangerFiles| && LoadNormalised(disk, StrangerFiles[i].1) == Err(f) &&
    forall j | 0 <= j < i :: LoadNormalised(disk, StrangerFiles[j].1).Ok?
  }

  /** Load and normalise the four stranger files in order, stopping at the first failure. */
  method LoadStrangers(disk: Disk) returns (r: Result<map<string, NdArray>>)
    ensures r.Ok? <==> ReferencesLoadable(disk)
    ensures r.Ok? ==> r.value == References(disk)
    ensures r.Err? ==> exists i :: FirstStrangerFailure(disk, i, r.failure)
  {
    var refs := map[];
    var i := 0;
    while i < |StrangerFiles|
      invariant 0 <= i <= |StrangerFiles|
      invariant forall j | 0 <= j < i :: LoadNormalised(disk, StrangerFiles[j].1).Ok?
      invariant refs == PartialReferences(disk, i)
    {
      var w := LoadNormalised(disk, StrangerFiles[i].1);
      if w.Err? {
        assert FirstStrangerFailure(disk, i, w.failure);
        return Err(w.failure);
      }
      refs := refs[StrangerFiles[i].0 := w.value];
      i := i + 1;
    }
    PartialReferencesComplete(disk);
    r := Ok(refs);
  }

  /** Check that the four files exist, then load and normalise each in turn;
      the first missing or failing file aborts the run. */
  method BuildReferenceSet(disk: Disk) returns (r: Result<map<string, NdArray>>)
    ensures r.Ok? <==> ReferencesLoadable(disk)
    ensures r.Ok? ==> r.value == References(disk)
    ensures (exists i | 0 <= i < |StrangerFiles| :: StrangerFiles[i].1 !in disk) ==> r.Err? && r.failure.FileNotFound?
  {
    var missing := FindMissingStrangerFile(disk);
    if missing.Some? {
      ghost var i :| 0 <= i < |StrangerFiles| && missing.value == StrangerFiles[i].1 &&
        forall j | 0 <= j < i :: StrangerFiles[j].1 in disk;
      StrangerFilesArePt(i);
      return Err(FileNotFound(missing.value));
    }
    r := LoadStrangers(disk);
  }

  // ---------------------------------------------------------------------------
  // Stranger selection

  function LowerChar(c: char): char
  {
    if 'A' <= c <= 'Z' then (c as int + 32) as char else c
  }

  /** Lower-casing, on ASCII letters. */
  function Lower(s: string): (r: string)
    ensures |r| == |s|
    ensures forall i | 0 <= i < |s| :: !('A' <= r[i] <= 'Z')
    ensures forall i | 0 <= i < |s| :: !('A' <= s[i] <= 'Z') ==> r[i] == s[i]
    ensures forall i | 0 <= i < |s| :: 'A' <= s[i] <= 'Z' ==> r[i] as int == s[i] as int + 32
  {
    seq(|s|, i requires 0 <= i < |s| => LowerChar(s[i]))
  }

  /** The pair of stranger keys a sex value selects, compared case-insensitively. */
  function StrangerPair(sex: string): (keys: Option<(string, string)>)
    ensures keys.Some? <==> Lower(sex) in {"f", "m"}
    ensures keys.Some? ==> keys.value.0 in StrangerKeys && keys.value.1 in StrangerKeys && keys.value.0 != keys.value.1
  {
    if Lower(sex) == "f" then Some(("fu1", "fu2"))
    else if Lower(sex) == "m" then Some(("mu1", "mu2"))
    else None
  }

  lemma LowerIsSingle(s: string, c: char)
    requires c == 'f' || c == 'm'
    ensures Lower(s) == [c] <==> s == [c] || s == [c - 32 as char]
  {
    if Lower(s) == [c] {
      assert LowerChar(s[0]) == Lower(s)[0];
      assert s == [s[0]];
    }
    if s == [c] || s == [c - 32 as char] {
      assert Lower(s) == [LowerChar(s[0])];
    }
  }

  /** `f`/`F` select the female strangers, `m`/`M` the male strangers, anything else none. */
  lemma StrangerSelection(sex: string)
    ensures StrangerPair(sex) == Some(("fu1", "fu2")) <==> sex == "f" || sex == "F"
    ensures StrangerPair(sex) == Some(("mu1", "mu2")) <==> sex == "m" || sex == "M"
    ensures StrangerPair(sex) == None <==> sex !in {"f", "F", "m", "M"}
  {
    LowerIsSingle(sex, 'f');
    LowerIsSingle(sex, 'm');
    assert "f" == ['f'] && "F" == ['f' - 32 as char];
    assert "m" == ['m'] && "M" == ['m' - 32 as char];
  }

  // ---------------------------------------------------------------------------
  // One row

  /** A table row: the participant's name, the sex cell (None when it is not
      text, e.g. an empty cell) and the friend cell (None when null). */
  datatype Row = Row(name: string, sex: Option<string>, fname: Option<string>)

  /** Where a participant's latent vector is stored. */
  function LatentPath(id: string): (p: string)
    ensures HasSuffix(p, ".pt")
  {
    "ptraw/" + id + "_01_latent.pt"
  }

  /** How the stranger part of a row ended. */
  datatype RowStatus =
    | Computed(u1: real, u2: real)     // both stranger distances written
    | MissingFile(path: string)        // no participant file
    | ComputeFailed(failure: Failure)  // participant vector failed to load or normalise
    | SexNotText                       // the sex cell is not text: lower-casing raises
    | InvalidSex(sex: string)          // text other than f/F/m/M

  /** How the friend part of a row ended. */
  datatype FriendStatus =
    | NotAttempted
    | FriendComputed(distance: real)
    | FriendFailed(failure: Failure)

  datatype RowResult = RowResult(status: RowStatus, friend: FriendStatus)

  /** Distance to the friend named in the row, attempted only when the table has
      a friend column and the cell is neither null nor empty. */
  function FriendOutcome(row: Row, hasFname: bool, w: RawArray, disk: Disk): (f: FriendStatus)
    requires IsWPlus(w)
    ensures f != NotAttempted <==> hasFname && row.fname.Some? && row.fname.value != ""
    ensures f.FriendComputed? <==>
      hasFname && row.fname.Some? && row.fname.value != "" && LoadNormalised(disk, LatentPath(row.fname.value)).Ok?
    ensures f.FriendComputed? ==>
      row.fname.Some? && LoadNormalised(disk, LatentPath(row.fname.value)).Ok? &&
      f.distance == Distance(w, LoadNormalised(disk, LatentPath(row.fname.value)).value)
    ensures f.FriendFailed? ==> row.fname.Some? && f.failure == LoadNormalised(disk, LatentPath(row.fname.value)).failure
    ensures f.FriendFailed? && LatentPath(row.fname.value) !in disk ==>
      f.failure == FileNotFound(LatentPath(row.fname.value))
  {
    if !hasFname then NotAttempted
    else match row.fname
      case None => NotAttempted
      case Some(fname) =>
        if fname == "" then NotAttempted
        else
          var path := LatentPath(fname);
          if path !in disk then FriendFailed(FileNotFound(path))
          else match LoadNormalised(disk, path)
            case Err(f) => FriendFailed(f)
            case Ok(fw) => FriendComputed(Distance(w, fw))
  }

  /** Everything the batch does for one row. The participant vector is loaded
      and normalised before the sex value is examined, and the friend is only
      looked at once both stranger distances exist. */
  function ProcessRow(row: Row, hasFname: bool, refs: map<string, NdArray>, disk: Disk): (r: RowResult)
    requires ValidReferences(refs)
    ensures r.status.Computed? <==>
      LoadNormalised(disk, LatentPath(row.name)).Ok? && row.sex.Some? && StrangerPair(row.sex.value).Some?
    ensures r.friend != NotAttempted ==> r.status.Computed?
    ensures r.status.Computed? ==>
      r.friend == FriendOutcome(row, hasFname, LoadNormalised(disk, LatentPath(row.name)).value, disk)
    ensures LatentPath(row.name) !in disk ==> r == RowResult(MissingFile(LatentPath(row.name)), NotAttempted)
    ensures LatentPath(row.name) in disk && LoadNormalised(disk, LatentPath(row.name)).Err? ==>
      r == RowResult(ComputeFailed(LoadNormalised(disk, LatentPath(row.name)).failure), NotAttempted)
  {
    var path := LatentPath(row.name);
    if path !in disk then RowResult(MissingFile(path), NotAttempted)
    else match LoadNormalised(disk, path)
      case Err(f) => RowResult(ComputeFailed(f), NotAttempted)
      case Ok(w) =>
        match row.sex
        case None => RowResult(SexNotText, NotAttempted)
        case Some(sex) =>
          match StrangerPair(sex)
          case None => RowResult(InvalidSex(sex), NotAttempted)
          case Some(keys) =>
            RowResult(Computed(Distance(w, refs[keys.0]), Distance(w, refs[keys.1])),
                      FriendOutcome(row, hasFname, w, disk))
  }

  /** The stranger distances of a computed row are those from the participant's
      normalised vector to the two strangers of its sex. */
  lemma RowDistancesBySex(row: Row, hasFname: bool, refs: map<string, NdArray>, disk: Disk)
    requires ValidReferences(refs)
    requires ProcessRow(row, hasFname, refs, disk).status.Computed?
    ensures var w := LoadNormalised(disk, LatentPath(row.name)).value;
      var s := ProcessRow(row, hasFname, refs, disk).status;
      (row.sex.value in {"f", "F"} ==> s.u1 == Distance(w, refs["fu1"]) && s.u2 == Distance(w, refs["fu2"])) &&
      (row.sex.value in {"m", "M"} ==> s.u1 == Distance(w, refs["mu1"]) && s.u2 == Distance(w, refs["mu2"]))
  {
    StrangerSelection(row.sex.value);
  }

  /** A row with a loadable participant file but an unusable sex value fails
      without distances and without a friend attempt. */
  lemma InvalidSexFails(row: Row, hasFname: bool, refs: map<string, NdArray>, disk: Disk)
    requires ValidReferences(refs)
    requires LoadNormalised(disk, LatentPath(row.name)).Ok?
    requires row.sex.None? || row.sex.value !in {"f", "F", "m", "M"}
    ensures ProcessRow(row, hasFname, refs, disk) ==
      RowResult(if row.sex.None? then SexNotText else InvalidSex(row.sex.value), NotAttempted)
  {
    if row.sex.Some? {
      StrangerSelection(row.sex.value);
    }
  }

  /** On a computed row, the friend distance is written exactly when the
      friend's file loads and normalises, and it is then the distance from the
      participant's vector to the friend's; otherwise the friend's failure is kept. */
  lemma RowFriendDistance(row: Row, hasFname: bool, refs: map<string, NdArray>, disk: Disk)
    requires ValidReferences(refs)
    requires ProcessRow(row, hasFname, refs, disk).status.Computed?
    requires hasFname && row.fname.Some? && row.fname.value != ""
    ensures var w := LoadNormalised(disk, LatentPath(row.name)).value;
      var friend := LoadNormalised(disk, LatentPath(row.fname.value));
      ProcessRow(row, hasFname, refs, disk).friend ==
        if friend.Ok? then FriendComputed(Distance(w, friend.value)) else FriendFailed(friend.failure)
  {
  }

  /** The friend part never changes the stranger part: dropping the friend
      column leaves the row's status as it is. */
  lemma FriendIsolated(row: Row, hasFname: bool, refs: map<string, NdArray>, disk: Disk)
    requires ValidReferences(refs)
    ensures ProcessRow(row, hasFname, refs, disk).status == ProcessRow(row.(fname := None), false, refs, disk).status
  {
  }

  /** When every reference equals the participant's vector, both stranger distances are zero. */
  lemma IdenticalVectorsGiveZero(row: Row, hasFname: bool, refs: map<string, NdArray>, disk: Disk)
    requires ValidReferences(refs)
    requires ProcessRow(row, hasFname, refs, disk).status.Computed?
    requires forall k | k in refs :: refs[k] == LoadNormalised(disk, LatentPath(row.name)).value
    ensures ProcessRow(row, hasFname, refs, disk).status == Computed(0.0, 0.0)
  {
    DistanceToSelf(LoadNormalised(disk, LatentPath(row.name)).value);
  }

  // ---------------------------------------------------------------------------
  // The table

  function Results(rows: seq<Row>, hasFname: bool, refs: map<string, NdArray>, disk: Disk): (rs: seq<RowResult>)
    requires ValidReferences(refs)
    ensures |rs| == |rows|
  {
    seq(|rows|, i requires 0 <= i < |rows| => ProcessRow(rows[i], hasFname, refs, disk))
  }

  /** Cell values written into the u1distance, u2distance and fdistance columns (None is NaN). */
  function U1Cell(r: RowResult): (c: Option<real>)
    ensures c.Some? <==> r.status.Computed?
    ensures c.Some? ==> c.value == r.status.u1
  {
    if r.status.Computed? then Some(r.status.u1) else None
  }

  function U2Cell(r: RowResult): (c: Option<real>)
    ensures c.Some? <==> r.status.Computed?
    ensures c.Some? ==> c.value == r.status.u2
  {
    if r.status.Computed? then Some(r.status.u2) else None
  }

  function FCell(r: RowResult): (c: Option<real>)
    ensures c.Some? <==> r.friend.FriendComputed?
    ensures c.Some? ==> c.value == r.friend.distance
  {
    if r.friend.FriendComputed? then Some(r.friend.distance) else None
  }

  function U1Column(rs: seq<RowResult>): seq<Option<real>>
  {
    seq(|rs|, i requires 0 <= i < |rs| => U1Cell(rs[i]))
  }

  function U2Column(rs: seq<RowResult>): seq<Option<real>>
  {
    seq(|rs|, i requires 0 <= i < |rs| => U2Cell(rs[i]))
  }

  function FColumn(rs: seq<RowResult>): seq<Option<real>>
  {
    seq(|rs|, i requires 0 <= i < |rs| => FCell(rs[i]))
  }

  /** The four counters kept by the batch loop. */
  datatype Counters = Counters(success: nat, fail: nat, friendSuccess: nat, friendFail: nat)

  /** The counters after one more row. */
  function Count(c: Counters, r: RowResult): (c': Counters)
    ensures r.status.Computed? ==> c'.success == c.success + 1 && c'.fail == c.fail
    ensures !r.status.Computed? ==> c'.success == c.success && c'.fail == c.fail + 1
    ensures r.friend.FriendComputed? ==> c'.friendSuccess == c.friendSuccess + 1 && c'.friendFail == c.friendFail
    ensures r.friend.FriendFailed? ==> c'.friendSuccess == c.friendSuccess && c'.friendFail == c.friendFail + 1
    ensures r.friend.NotAttempted? ==> c'.friendSuccess == c.friendSuccess && c'.friendFail == c.friendFail
  {
    var c' := if r.status.Computed? then c.(success := c.success + 1) else c.(fail := c.fail + 1);
    match r.friend
    case NotAttempted => c'
    case FriendComputed(_) => c'.(friendSuccess := c'.friendSuccess + 1)
    case FriendFailed(_) => c'.(friendFail := c'.friendFail + 1)
  }

  /** The counters after a sequence of rows, starting from zero. */
  function Tally(rs: seq<RowResult>): (c: Counters)
    ensures c.success + c.fail == |rs|
  {
    if |rs| == 0 then Counters(0, 0, 0, 0) else Count(Tally(rs[..|rs| - 1]), rs[|rs| - 1])
  }

  /** Number of non-null cells of a column. */
  function CountPresent(column: seq<Option<real>>): nat
  {
    if |column| == 0 then 0
    else CountPresent(column[..|column| - 1]) + (if column[|column| - 1].Some? then 1 else 0)
  }

  /** A result as ProcessRow produces it: a friend is only tried on a computed row. */
  predicate FriendOnlyAfterStrangers(r: RowResult)
  {
    r.friend != NotAttempted ==> r.status.Computed?
  }

  /** Friend attempts never outnumber successful rows. */
  lemma {:induction false} TallyFriendsWithinSuccess(rs: seq<RowResult>)
    requires forall i | 0 <= i < |rs| :: FriendOnlyAfterStrangers(rs[i])
    ensures Tally(rs).friendSuccess + Tally(rs).friendFail <= Tally(rs).success
  {
    if |rs| > 0 {
      TallyFriendsWithinSuccess(rs[..|rs| - 1]);
    }
  }

  /** The non-null u1distance and u2distance cells are exactly the successful
      rows, and the non-null fdistance cells exactly the friend successes. */
  lemma {:induction false} ColumnsMatchCounters(rs: seq<RowResult>)
    ensures CountPresent(U1Column(rs)) == Tally(rs).success
    ensures CountPresent(U2Column(rs)) == Tally(rs).success
    ensures CountPresent(FColumn(rs)) == Tally(rs).friendSuccess
  {
    if |rs| > 0 {
      var n := |rs| - 1;
      ColumnsMatchCounters(rs[..n]);
      assert U1Column(rs)[..n] == U1Column(rs[..n]);
      assert U2Column(rs)[..n] == U2Column(rs[..n]);
      assert FColumn(rs)[..n] == FColumn(rs[..n]);
    }
  }

  /** A column of `n` null cells, as the script creates it (`np.nan`). */
  function Unfilled(n: nat): (c: seq<Option<real>>)
    ensures |c| == n && forall j | 0 <= j < n :: c[j] == None
  {
    seq(n, _ => None)
  }

  /** A column whose first `i` cells are done and whose other cells are still
      null: writing cell `i` extends the done part by one. */
  lemma ExtendPrefix(before: seq<Option<real>>, column: seq<Option<real>>, i: nat)
    requires i < |column|
    requires before == column[..i] + Unfilled(|column| - i)
    ensures before[i] == None
    ensures before[i := column[i]] == column[..i + 1] + Unfilled(|column| - i - 1)
  {
    assert before[i] == Unfilled(|column| - i)[0];
  }

  /** The body of the batch loop for row `i`: the row's distance cells are
      written in place and the counters are advanced, with an early exit at
      each failure as the loop's `continue`s (a missing file, an invalid sex)
      and its `except` (a load or shape failure, a sex that is not text) do. */
  method ProcessRowInPlace(rows: seq<Row>, i: nat, hasFname: bool, refs: map<string, NdArray>, disk: Disk,
                           u1: array<Option<real>>, u2: array<Option<real>>, fd: array<Option<real>>,
                           counts: Counters, ghost r: RowResult)
    returns (counts': Counters)
    requires ValidReferences(refs)
    requires i < |rows| && r == Results(rows, hasFname, refs, disk)[i]
    requires i < u1.Length && i < u2.Length && i < fd.Length
    requires u1 != u2 && u1 != fd && u2 != fd
    requires u1[i] == None && u2[i] == None && fd[i] == None
    modifies u1, u2, fd
    ensures u1[..] == old(u1[..])[i := U1Cell(r)]
    ensures u2[..] == old(u2[..])[i := U2Cell(r)]
    ensures fd[..] == old(fd[..])[i := FCell(r)]
    ensures counts' == Count(counts, r)
  {
    var row := rows[i];
    assert r == ProcessRow(row, hasFname, refs, disk);
    counts' := counts;
    var path := LatentPath(row.name);
    if path !in disk {
      counts' := counts'.(fail := counts'.fail + 1);
      return;
    }
    var participant := LoadNormalised(disk, path);
    if participant.Err? {
      counts' := counts'.(fail := counts'.fail + 1);
      return;
    }
    var w := participant.value;
    if row.sex.None? {
      counts' := counts'.(fail := counts'.fail + 1);
      return;
    }
    var keys := StrangerPair(row.sex.value);
    if keys.None? {
      counts' := counts'.(fail := counts'.fail + 1);
      return;
    }
    var u1Distance := Distance(w, refs[keys.value.0]);
    var u2Distance := Distance(w, refs[keys.value.1]);
    u1[i] := Some(u1Distance);
    u2[i] := Some(u2Distance);
    if hasFname && row.fname.Some? && row.fname.value != "" {
      var friendPath := LatentPath(row.fname.value);
      if friendPath in disk {
        var friend := LoadNormalised(disk, friendPath);
        if friend.Ok? {
          fd[i] := Some(Distance(w, friend.value));
          counts' := counts'.(friendSuccess := counts'.friendSuccess + 1);
        } else {
          counts' := counts'.(friendFail := counts'.friendFail + 1);
        }
      } else {
        counts' := counts'.(friendFail := counts'.friendFail + 1);
      }
    }
    counts' := counts'.(success := counts'.success + 1);
  }

  /** One pass of the batch loop, seen from the whole table: rows before `i`
      are done and the rest are still null; afterwards row `i` is done too and
      the counters include it. */
  method FillRow(rows: seq<Row>, i: nat, hasFname: bool, refs: map<string, NdArray>, disk: Disk,
                 u1: array<Option<real>>, u2: array<Option<real>>, fd: array<Option<real>>, counts: Counters)
    returns (counts': Counters)
    requires ValidReferences(refs) && i < |rows|
    requires u1 != u2 && u1 != fd && u2 != fd
    requires u1[..] == U1Column(Results(rows, hasFname, refs, disk))[..i] + Unfilled(|rows| - i)
    requires u2[..] == U2Column(Results(rows, hasFname, refs, disk))[..i] + Unfilled(|rows| - i)
    requires fd[..] == FColumn(Results(rows, hasFname, refs, disk))[..i] + Unfilled(|rows| - i)
    requires counts == Tally(Results(rows, hasFname, refs, disk)[..i])
    modifies u1, u2, fd
    ensures u1[..] == U1Column(Results(rows, hasFname, refs, disk))[..i + 1] + Unfilled(|rows| - (i + 1))
    ensures u2[..] == U2Column(Results(rows, hasFname, refs, disk))[..i + 1] + Unfilled(|rows| - (i + 1))
    ensures fd[..] == FColumn(Results(rows, hasFname, refs, disk))[..i + 1] + Unfilled(|rows| - (i + 1))
    ensures counts' == Tally(Results(rows, hasFname, refs, disk)[..i + 1])
  {
    ghost var rs := Results(rows, hasFname, refs, disk);
    assert rs[..i + 1][..i] == rs[..i];
    ExtendPrefix(u1[..], U1Column(rs), i);
    ExtendPrefix(u2[..], U2Column(rs), i);
    ExtendPrefix(fd[..], FColumn(rs), i);
    counts' := ProcessRowInPlace(rows, i, hasFname, refs, disk, u1, u2, fd, counts, rs[i]);
  }

  /** The batch loop over the table. The three distance columns start out
      null, and each row writes its cells in place. */
  method ProcessTable(rows: seq<Row>, hasFname: bool, refs: map<string, NdArray>, disk: Disk)
    returns (u1: array<Option<real>>, u2: array<Option<real>>, fd: array<Option<real>>, counts: Counters)
    requires ValidReferences(refs)
    ensures fresh(u1) && fresh(u2) && fresh(fd)
    ensures u1[..] == U1Column(Results(rows, hasFname, refs, disk))
    ensures u2[..] == U2Column(Results(rows, hasFname, refs, disk))
    ensures fd[..] == FColumn(Results(rows, hasFname, refs, disk))
    ensures counts == Tally(Results(rows, hasFname, refs, disk))
  {
    u1 := new Option<real>[|rows|](_ => None);
    u2 := new Option<real>[|rows|](_ => None);
    fd := new Option<real>[|rows|](_ => None);
    counts := Counters(0, 0, 0, 0);
    ghost var rs := Results(rows, hasFname, refs, disk);
    ghost var c1, c2, cf := U1Column(rs), U2Column(rs), FColumn(rs);
    assert u1[..] == c1[..0] + Unfilled(|rows|);
    assert u2[..] == c2[..0] + Unfilled(|rows|);
    assert fd[..] == cf[..0] + Unfilled(|rows|);
    assert rs[..0] == [];
    for i := 0 to |rows|
      invariant u1[..] == c1[..i] + Unfilled(|rows| - i)
      invariant u2[..] == c2[..i] + Unfilled(|rows| - i)
      invariant fd[..] == cf[..i] + Unfilled(|rows| - i)
      invariant counts == Tally(rs[..i])
    {
      counts := FillRow(rows, i, hasFname, refs, disk, u1, u2, fd, counts);
    }
    assert rs[..|rows|] == rs;
    assert c1[..|rows|] == c1 && c2[..|rows|] == c2 && cf[..|rows|] == cf;
  }

  /** What a completed run leaves behind: the three distance columns and the counters. */
  datatype Report = Report(u1: seq<Option<real>>, u2: seq<Option<real>>, fdistance: seq<Option<real>>, counts: Counters)

  /** A whole run: the reference set, then the table. A missing or unusable
      reference file aborts the run before any row is looked at. */
  method Run(disk: Disk, rows: seq<Row>, hasFname: bool) returns (r: Result<Report>)
    ensures r.Ok? <==> ReferencesLoadable(disk)
    ensures r.Ok? ==>
      var rs := Results(rows, hasFname, References(disk), disk);
      r.value == Report(U1Column(rs), U2Column(rs), FColumn(rs), Tally(rs))
  {
    var refs := BuildReferenceSet(disk);
    if refs.Err? {
      return Err(refs.failure);
    }
    var u1, u2, fd, counts := ProcessTable(rows, hasFname, refs.value, disk);
    r := Ok(Report(u1[..], u2[..], fd[..], counts));
  }

  /** After a run, successes and failures add up to the number of rows, friend
      attempts stay within the successes, and the non-null cells of each
      column are exactly the corresponding successes. */
  lemma RunAccounting(disk: Disk, rows: seq<Row>, hasFname: bool)
    requires ReferencesLoadable(disk)
    ensures var rs := Results(rows, hasFname, References(disk), disk);
      var c := Tally(rs);
      c.success + c.fail == |rows| &&
      c.friendSuccess + c.friendFail <= c.success &&
      CountPresent(U1Column(rs)) == c.success &&
      CountPresent(U2Column(rs)) == c.success &&
      CountPresent(FColumn(rs)) == c.friendSuccess
  {
    var rs := Results(rows, hasFname, References(disk), disk);
    TallyFriendsWithinSuccess(rs);
    ColumnsMatchCounters(rs);
  }
}

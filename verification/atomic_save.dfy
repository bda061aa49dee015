/** Saving the state file: temp file, fsync, rename, fsync of the directory.

    The file system keeps what is visible apart from what is on disk. A power loss
    leaves the directory as it stood after some prefix of its unsynced changes (each
    change, a rename included, is atomic), and leaves a file that was not synced since
    its last write with any content at all. */
module AtomicSave {
  import opened Wrappers

  type Bytes = seq<char>

  type Inode = nat

  datatype Name = Target | Temp

  type Directory = map<Name, Inode>

  datatype File = File(content: Bytes, synced: bool)

  /** `durable` is the directory on disk; `pending` its later versions, oldest first. */
  datatype Disk = Disk(durable: Directory, pending: seq<Directory>, files: map<Inode, File>)

  function Views(d: Disk): seq<Directory> { [d.durable] + d.pending }

  function Current(d: Disk): Directory { Views(d)[|d.pending|] }

  /** What a reader finds at the target now; `None` when there is no file. */
  function Visible(d: Disk): Option<Bytes> {
    if Target in Current(d) && Current(d)[Target] in d.files then Some(d.files[Current(d)[Target]].content) else None
  }

  // ------------------------------------------------------------------
  // What a power loss can leave
  // ------------------------------------------------------------------

  /** Names point to files, and the temp file is not, and in no version on its way to
      disk was, the target's file. */
  ghost predicate WellFormed(d: Disk) {
    && (forall v :: v in Views(d) ==> forall n :: n in v ==> v[n] in d.files)
    && (forall v :: v in Views(d) && Temp in v && Target in v ==> v[Temp] != v[Target])
    && (forall v :: v in Views(d) && Temp in Current(d) && Target in v ==> v[Target] != Current(d)[Temp])
  }

  /** Every directory version a power loss can leave has a complete target from `versions`. */
  ghost predicate OnlyVersions(d: Disk, versions: set<Option<Bytes>>) {
    forall v :: v in Views(d) ==>
                  if Target in v then
                    v[Target] in d.files && d.files[v[Target]].synced && Some(d.files[v[Target]].content) in versions
                  else None in versions
  }

  /** `after` is a disk that a power loss can leave of `d`. */
  predicate PowerLoss(d: Disk, after: Disk) {
    && after.durable in Views(d) && after.pending == []
    && after.files.Keys == d.files.Keys
    && (forall i :: i in d.files ==> after.files[i].synced && (d.files[i].synced ==> after.files[i] == d.files[i]))
  }

  /** After a power loss the target reads as one of the versions, whole. */
  lemma ReadsWholeVersion(d: Disk, after: Disk, versions: set<Option<Bytes>>)
    requires WellFormed(d) && OnlyVersions(d, versions) && PowerLoss(d, after)
    ensures Visible(after) in versions
    ensures WellFormed(after) && OnlyVersions(after, versions)
  {
    assert Views(after) == [after.durable];
    assert after.durable in Views(d);
  }

  /** The converse: a disk that could lose the target, or leave it half written, has a
      power loss after which it reads as something else. */
  lemma OnlyVersionsIsNeeded(d: Disk, versions: set<Option<Bytes>>, garbage: Bytes)
    requires WellFormed(d) && !OnlyVersions(d, versions) && Some(garbage) !in versions
    ensures exists after :: PowerLoss(d, after) && Visible(after) !in versions
  {
    var v :| v in Views(d) && !(if Target in v then
      v[Target] in d.files && d.files[v[Target]].synced && Some(d.files[v[Target]].content) in versions
      else None in versions);
    var files := map i | i in d.files :: File(if d.files[i].synced then d.files[i].content else garbage, true);
    var after := Disk(v, [], files);
    assert PowerLoss(d, after);
    assert Views(after) == [v];
  }

  // ------------------------------------------------------------------
  // The calls `save` makes
  // ------------------------------------------------------------------

  function FreshInode(files: map<Inode, File>): (i: Inode)
    ensures i !in files
  {
    var top := MaxInode(files.Keys);
    top + 1
  }

  ghost predicate IsBound(s: set<Inode>, top: Inode) { forall i :: i in s ==> i <= top }

  function MaxInode(s: set<Inode>): (top: Inode)
    ensures IsBound(s, top)
  {
    if s == {} then 0
    else
      LargestExists(s);
      var m :| m in s && forall i :: i in s ==> i <= m;
      m
  }

  lemma {:induction false} LargestExists(s: set<Inode>)
    requires s != {}
    ensures exists m :: m in s && forall i :: i in s ==> i <= m
  {
    var x :| x in s;
    if s != {x} {
      LargestExists(s - {x});
      var m :| m in s - {x} && forall i :: i in s - {x} ==> i <= m;
      var top := if m < x then x else m;
      assert forall i :: i in s ==> i == x || i in s - {x};
      assert top in s && forall i :: i in s ==> i <= top;
    }
  }

  function WithView(d: Disk, v: Directory): Disk { d.(pending := d.pending + [v]) }

  /** open with create and truncate */
  function Opened(d: Disk): Disk {
    if Temp in Current(d) then d.(files := d.files[Current(d)[Temp] := File([], false)])
    else
      var i := FreshInode(d.files);
      WithView(d, Current(d)[Temp := i]).(files := d.files[i := File([], false)])
  }

  function Written(d: Disk, content: Bytes): Disk
    requires Temp in Current(d)
  {
    d.(files := d.files[Current(d)[Temp] := File(content, false)])
  }

  function Synced(d: Disk): Disk
    requires Temp in Current(d) && Current(d)[Temp] in d.files
  {
    d.(files := d.files[Current(d)[Temp] := File(d.files[Current(d)[Temp]].content, true)])
  }

  function Renamed(d: Disk): Disk
    requires Temp in Current(d)
  {
    WithView(d, map[Target := Current(d)[Temp]])
  }

  function Removed(d: Disk): Disk { WithView(d, Current(d) - {Temp}) }

  function DirectorySynced(d: Disk): Disk { Disk(Current(d), [], d.files) }

  predicate TempHolds(d: Disk, file: File) {
    Temp in Current(d) && Current(d)[Temp] in d.files && d.files[Current(d)[Temp]] == file
  }

  ghost predicate Safe(d: Disk, versions: set<Option<Bytes>>) {
    WellFormed(d) && OnlyVersions(d, versions)
  }

  lemma OpenedIsSafe(d: Disk, versions: set<Option<Bytes>>)
    requires Safe(d, versions)
    ensures Safe(Opened(d), versions) && TempHolds(Opened(d), File([], false))
    ensures Visible(Opened(d)) == Visible(d)
  {
    var after := Opened(d);
    if Temp in Current(d) {
      assert Views(after) == Views(d);
      assert Current(d) in Views(d);
    } else {
      assert Views(after) == Views(d) + [Current(after)];
      assert Current(d) in Views(d);
    }
  }

  lemma WrittenIsSafe(d: Disk, content: Bytes, versions: set<Option<Bytes>>)
    requires Safe(d, versions) && Temp in Current(d)
    ensures Safe(Written(d, content), versions) && TempHolds(Written(d, content), File(content, false))
    ensures Visible(Written(d, content)) == Visible(d)
  {
    assert Views(Written(d, content)) == Views(d);
    assert Current(d) in Views(d);
  }

  lemma SyncedIsSafe(d: Disk, content: Bytes, versions: set<Option<Bytes>>)
    requires Safe(d, versions) && TempHolds(d, File(content, false))
    ensures Safe(Synced(d), versions) && TempHolds(Synced(d), File(content, true))
    ensures Visible(Synced(d)) == Visible(d)
  {
    assert Views(Synced(d)) == Views(d);
    assert Current(d) in Views(d);
  }

  lemma RenamedIsSafe(d: Disk, content: Bytes, versions: set<Option<Bytes>>)
    requires Safe(d, versions) && TempHolds(d, File(content, true))
    ensures Safe(Renamed(d), versions + {Some(content)}) && Visible(Renamed(d)) == Some(content)
    ensures Safe(DirectorySynced(Renamed(d)), {Some(content)})
    ensures Visible(DirectorySynced(Renamed(d))) == Some(content)
    ensures Temp !in Current(Renamed(d)) && Temp !in Current(DirectorySynced(Renamed(d)))
  {
    var after := Renamed(d);
    assert Views(after) == Views(d) + [Current(after)];
    assert Views(DirectorySynced(after)) == [Current(after)];
  }

  lemma RemovedIsSafe(d: Disk, versions: set<Option<Bytes>>)
    requires Safe(d, versions)
    ensures Safe(Removed(d), versions) && Visible(Removed(d)) == Visible(d)
  {
    assert Views(Removed(d)) == Views(d) + [Current(d) - {Temp}];
    assert Current(d) in Views(d);
  }

  lemma MoreVersions(d: Disk, versions: set<Option<Bytes>>, more: set<Option<Bytes>>)
    requires Safe(d, versions) && versions <= more
    ensures Safe(d, more)
  {
  }

  // ------------------------------------------------------------------
  // save
  // ------------------------------------------------------------------

  class FileSystem {
    var disk: Disk
    /** The disk at every boundary between calls, where the power may go. */
    var seen: seq<Disk>
    /** How many calls failed so far. */
    ghost var failures: nat

    constructor (initial: Disk)
      ensures disk == initial && seen == [initial] && failures == 0
    {
      disk := initial;
      seen := [initial];
      failures := 0;
    }

    /** Whether the next call goes through. */
    method Answer() returns (works: bool)
      modifies this`failures
      ensures failures == old(failures) + if works then 0 else 1
    {
      works := *;
      if !works {
        failures := failures + 1;
      }
    }

    method Become(next: Disk)
      modifies this`disk, this`seen
      ensures disk == next && seen == old(seen) + [next]
    {
      disk := next;
      seen := seen + [next];
    }

    /** `State::save`. Any call may fail; a write that fails may leave any part of what it
        was given. At every boundary the target is an old version or the new one, whole. It
        reports success exactly when no call failed, and then it is the new one and nothing
        else. */
    method Save(body: Bytes, ghost versions: set<Option<Bytes>>) returns (ok: bool)
      requires Safe(disk, versions)
      modifies this
      ensures |old(seen)| <= |seen| && seen[..|old(seen)|] == old(seen)
      ensures forall k :: |old(seen)| <= k < |seen| ==> Safe(seen[k], versions + {Some(body + "\n")})
      ensures Safe(disk, versions + {Some(body + "\n")})
      ensures ok <==> failures == old(failures)
      ensures ok ==> Safe(disk, {Some(body + "\n")}) && Visible(disk) == Some(body + "\n")
      ensures Visible(disk) == old(Visible(disk)) || Visible(disk) == Some(body + "\n")
      ensures Temp in Current(disk) && Temp !in old(Current(disk)) ==> old(failures) + 2 <= failures
    {
      var allowed := versions + {Some(body + "\n")};
      MoreVersions(disk, versions, allowed);
      hide Safe, Opened, Written, Synced, Renamed, Removed, DirectorySynced, Visible;
      var works := Answer();
      if !works {
        return false;
      }
      var written := WriteTemp(body, allowed);
      if !written {
        RemoveTemp(allowed);
        return false;
      }
      works := Answer();
      if !works {
        RemoveTemp(allowed);
        return false;
      }
      RenamedIsSafe(disk, body + "\n", allowed);
      assert allowed + {Some(body + "\n")} == allowed;
      Become(Renamed(disk));
      works := Answer();
      if !works {
        return false;
      }
      MoreVersions(DirectorySynced(disk), {Some(body + "\n")}, allowed);
      Become(DirectorySynced(disk));
      ok := true;
    }

    /** The temp file: created, written, synced. */
    method WriteTemp(body: Bytes, ghost allowed: set<Option<Bytes>>) returns (ok: bool)
      requires Safe(disk, allowed)
      modifies this
      ensures Safe(disk, allowed) && Visible(disk) == old(Visible(disk))
      ensures |old(seen)| <= |seen| && seen[..|old(seen)|] == old(seen)
      ensures forall k :: |old(seen)| <= k < |seen| ==> Safe(seen[k], allowed)
      ensures old(failures) <= failures && (ok <==> failures == old(failures))
      ensures ok ==> TempHolds(disk, File(body + "\n", true))
    {
      hide Safe, Opened, Written, Synced, Visible;
      var works := Answer();
      if !works {
        return false;
      }
      OpenedIsSafe(disk, allowed);
      Become(Opened(disk));
      works := Answer();
      var part: int := *;
      var landed := if works || part < 0 || |body| <= part then body else body[..part];
      WrittenIsSafe(disk, landed, allowed);
      Become(Written(disk, landed));
      if !works {
        return false;
      }
      works := Answer();
      if !works {
        return false;
      }
      WrittenIsSafe(disk, body + "\n", allowed);
      Become(Written(disk, body + "\n"));
      works := Answer();
      if !works {
        return false;
      }
      SyncedIsSafe(disk, body + "\n", allowed);
      Become(Synced(disk));
      ok := true;
    }

    /** Removing the temp file, best effort. */
    method RemoveTemp(ghost allowed: set<Option<Bytes>>)
      requires Safe(disk, allowed)
      modifies this
      ensures Safe(disk, allowed) && Visible(disk) == old(Visible(disk))
      ensures |old(seen)| <= |seen| && seen[..|old(seen)|] == old(seen)
      ensures forall k :: |old(seen)| <= k < |seen| ==> Safe(seen[k], allowed)
      ensures old(failures) <= failures
      ensures failures == old(failures) ==> Temp !in Current(disk)
    {
      var works := Answer();
      if works {
        RemovedIsSafe(disk, allowed);
        Become(Removed(disk));
      }
    }

    /** Any sequence of saves, each of which may fail anywhere or be cut short by a power
        loss at any boundary. `reported` tells which of them came back with success: the
        target is always, whole, the last of these or one handed to `save` since then. */
    method SaveRepeatedly(bodies: seq<Bytes>) returns (reported: seq<bool>, ghost versions: set<Option<Bytes>>)
      requires Safe(disk, {Visible(disk)})
      modifies this
      ensures |reported| == |bodies|
      ensures Safe(disk, versions) && Visible(disk) in versions
      ensures forall r :: r in versions ==> r == old(Visible(disk)) || From(bodies, 0, r)
      ensures forall k, r :: 0 <= k < |bodies| && reported[k] && r in versions ==> From(bodies, k, r)
    {
      versions := {Visible(disk)};
      reported := [];
      for i := 0 to |bodies|
        invariant |reported| == i
        invariant Safe(disk, versions) && Visible(disk) in versions
        invariant forall r :: r in versions ==> r == old(Visible(disk)) || From(bodies[..i], 0, r)
        invariant forall k, r :: 0 <= k < i && reported[k] && r in versions ==> From(bodies[..i], k, r)
      {
        hide Safe, Visible, From;
        ghost var before := versions;
        var ok;
        ok, versions := SaveUnderThreat(bodies[i], versions);
        reported := reported + [ok];
        assert bodies[..i + 1] == bodies[..i] + [bodies[i]];
        forall k, r | 0 <= k <= i
          ensures From(bodies[..i], k, r) ==> From(bodies[..i + 1], k, r)
          ensures r == Some(bodies[i] + "\n") ==> From(bodies[..i + 1], k, r)
        {
          FromMore(bodies[..i], bodies[i], k, r);
        }
      }
      assert bodies[..|bodies|] == bodies;
    }

    /** One save, then perhaps a power loss at one of its boundaries or after it. It is
        reported when it succeeded and the power held until it returned. */
    method SaveUnderThreat(body: Bytes, ghost before: set<Option<Bytes>>)
      returns (reported: bool, ghost versions: set<Option<Bytes>>)
      requires Safe(disk, before) && Visible(disk) in before
      modifies this
      ensures Safe(disk, versions) && Visible(disk) in versions
      ensures versions == if reported then {Some(body + "\n")} else before + {Some(body + "\n")}
    {
      hide Safe, Visible;
      var start := |seen|;
      var ok := Save(body, before);
      var k: int := *;
      var after: Disk := *;
      var cut := start <= k < |seen| && PowerLoss(seen[k], after);
      reported := ok && !cut;
      versions := if reported then {Some(body + "\n")} else before + {Some(body + "\n")};
      if cut {
        AfterPowerLoss(seen[k], after, versions);
        disk := after;
        return;
      }
      var later: Disk := *;
      if PowerLoss(disk, later) {
        AfterPowerLoss(disk, later, versions);
        disk := later;
      }
    }
  }

  /** `r` is what one of the bodies from the k-th on saves. */
  ghost predicate From(bodies: seq<Bytes>, k: nat, r: Option<Bytes>) {
    exists j :: k <= j < |bodies| && r == Some(bodies[j] + "\n")
  }

  lemma FromMore(bodies: seq<Bytes>, body: Bytes, k: nat, r: Option<Bytes>)
    requires k <= |bodies|
    ensures From(bodies, k, r) ==> From(bodies + [body], k, r)
    ensures r == Some(body + "\n") ==> From(bodies + [body], k, r)
  {
    var more := bodies + [body];
    if From(bodies, k, r) {
      var j :| k <= j < |bodies| && r == Some(bodies[j] + "\n");
      assert more[j] == bodies[j];
    }
    if r == Some(body + "\n") {
      assert more[|bodies|] == body;
    }
  }

  lemma AfterPowerLoss(d: Disk, after: Disk, versions: set<Option<Bytes>>)
    requires Safe(d, versions) && PowerLoss(d, after)
    ensures Safe(after, versions) && Visible(after) in versions
  {
    ReadsWholeVersion(d, after, versions);
  }
}

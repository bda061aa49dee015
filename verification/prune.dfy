/** Pruning of daily backups: only own ones, never the last verified. */
module BackupPrune {
  import opened Sorting

  // ------------------------------------------------------------------
  // Directory names, compared character by character
  // ------------------------------------------------------------------

  predicate NameLess(a: string, b: string) {
    b != "" && (a == "" || a[0] < b[0] || (a[0] == b[0] && NameLess(a[1..], b[1..])))
  }

  lemma {:induction false} NameLessIrreflexive(a: string)
    ensures !NameLess(a, a)
  {
    if a != "" {
      NameLessIrreflexive(a[1..]);
    }
  }

  lemma {:induction false} NameLessTransitive(a: string, b: string, c: string)
    requires NameLess(a, b) && NameLess(b, c)
    ensures NameLess(a, c)
  {
    if a != "" && a[0] == b[0] && b[0] == c[0] {
      NameLessTransitive(a[1..], b[1..], c[1..]);
    }
  }

  lemma {:induction false} NameLessTotal(a: string, b: string)
    ensures a == b || NameLess(a, b) || NameLess(b, a)
  {
    if a != "" && b != "" && a[0] == b[0] {
      NameLessTotal(a[1..], b[1..]);
      assert a == [a[0]] + a[1..] && b == [b[0]] + b[1..];
    }
  }

  lemma NameLessAsymmetric(a: string, b: string)
    ensures NameLess(a, b) ==> !NameLess(b, a)
  {
    if NameLess(a, b) && NameLess(b, a) {
      NameLessTransitive(a, b, a);
      NameLessIrreflexive(a);
    }
  }

  lemma NamesAreOrdered()
    ensures StrictTotal(NameLess)
  {
    forall a
      ensures !NameLess(a, a)
    {
      NameLessIrreflexive(a);
    }
    forall a, b, c | NameLess(a, b) && NameLess(b, c)
      ensures NameLess(a, c)
    {
      NameLessTransitive(a, b, c);
    }
    forall a, b
      ensures a == b || NameLess(a, b) || NameLess(b, a)
    {
      NameLessTotal(a, b);
    }
  }

  // ------------------------------------------------------------------
  // What must stay
  // ------------------------------------------------------------------

  /** What a backup's own verdict file says; `NoVerdict` when there is no readable verdict. */
  datatype Claim = SaysVerified | SaysFailed | NoVerdict

  type Backups = map<string, Claim>

  function Verified(all: Backups): set<string> { set n | n in all && all[n] == SaysVerified }

  function NewerVerified(all: Backups, name: string): set<string> {
    set n | n in all && all[n] == SaysVerified && NameLess(name, n)
  }

  /** Removed: own, judged, and either a verified one with `keep` newer verified ones
      (at least one), or a failed one with a verified one after it. */
  predicate Removable(all: Backups, owned: set<string>, keep: int, name: string) {
    && name in all && name in owned
    && match all[name]
       case NoVerdict => false
       case SaysVerified => keep <= |NewerVerified(all, name)| && NewerVerified(all, name) != {}
       case SaysFailed => NewerVerified(all, name) != {}
  }

  ghost predicate Listing(listing: seq<string>, all: Backups) {
    && (forall n :: n in listing <==> n in all)
    && (forall i, j :: 0 <= i < j < |listing| ==> listing[i] != listing[j])
  }

  /** The root directory of the daily backups. */
  class Root {
    var backups: Backups

    /** `prune`. `listing` is the directory in whatever order the system gives it. */
    method Prune(listing: seq<string>, owned: set<string>, keep: int) returns (removed: seq<string>)
      requires Listing(listing, backups)
      modifies this
      ensures Names(removed) == AllRemovable(old(backups), owned, keep) && Ascending(removed)
      ensures backups == old(backups) - AllRemovable(old(backups), owned, keep)
    {
      hide *;
      ghost var all := backups;
      ghost var gone := AllRemovable(all, owned, keep);
      var dirs := Sort(listing, NameLess);
      SortedListing(listing, all);
      EndOfLoop(dirs, all, gone, owned, keep);
      var verified := Select(dirs, Verified(backups));
      if verified == [] {
        NothingRemovable(dirs, all, owned, keep);
        return [];
      }
      var kept := if keep < 1 then 1 else if |verified| < keep then |verified| else keep;
      DecidedAlike(dirs, all, owned, keep, kept);
      removed := Sweep(dirs, verified[|verified| - kept..], verified[|verified| - 1], owned, gone);
    }

    /** The loop: each directory in turn, removed or passed over. */
    method Sweep(dirs: seq<string>, protect: seq<string>, last: string, owned: set<string>, ghost gone: set<string>)
      returns (removed: seq<string>)
      requires Lists(dirs, backups) && Decided(backups, protect, last, owned, gone)
      modifies this
      ensures removed == Select(dirs, gone) && backups == old(backups) - Names(removed)
    {
      ghost var all := backups;
      StartOfLoop(dirs, all, gone);
      removed := [];
      hide *;
      for i := 0 to |dirs|
        invariant removed == Select(dirs[..i], gone)
        invariant backups == all - Names(removed)
      {
        var p := dirs[i];
        OneStep(dirs, i, all, gone);
        DecidedOne(all, protect, last, owned, gone, p);
        if Goes(backups[p], protect, last, owned, p) {
          backups := backups - {p};
          removed := removed + [p];
        }
      }
      assert dirs[..|dirs|] == dirs;
    }
  }

  ghost predicate Decided(all: Backups, protect: seq<string>, last: string, owned: set<string>, gone: set<string>) {
    forall p :: p in all ==> (p in gone <==> Goes(all[p], protect, last, owned, p))
  }

  lemma DecidedOne(all: Backups, protect: seq<string>, last: string, owned: set<string>, gone: set<string>, p: string)
    requires Decided(all, protect, last, owned, gone) && p in all
    ensures p in gone <==> Goes(all[p], protect, last, owned, p)
  {
  }

  lemma DecidedAlike(dirs: seq<string>, all: Backups, owned: set<string>, keep: int, kept: nat)
    requires Lists(dirs, all) && Select(dirs, Verified(all)) != []
    requires kept == if keep < 1 then 1 else if |Select(dirs, Verified(all))| < keep then |Select(dirs, Verified(all))| else keep
    ensures
      var verified := Select(dirs, Verified(all));
      Decided(all, verified[|verified| - kept..], verified[|verified| - 1], owned, AllRemovable(all, owned, keep))
  {
    forall p | p in all
      ensures p in AllRemovable(all, owned, keep) <==>
              Goes(all[p], Select(dirs, Verified(all))[|Select(dirs, Verified(all))| - kept..],
                   Select(dirs, Verified(all))[|Select(dirs, Verified(all))| - 1], owned, p)
    {
      Decision(dirs, all, owned, keep, kept, p);
    }
  }

  /** One directory of the loop: it is still there, and what its removal leaves. */
  lemma OneStep(dirs: seq<string>, i: nat, all: Backups, gone: set<string>)
    requires Lists(dirs, all) && i < |dirs|
    ensures
      var p, removed := dirs[i], Select(dirs[..i], gone);
      && p in all && p in all - Names(removed) && (all - Names(removed))[p] == all[p]
      && all - Names(removed) - {p} == all - Names(removed + [p])
      && Select(dirs[..i + 1], gone) == if p in gone then removed + [p] else removed
  {
    hide NameLess;
    assert dirs[..i + 1] == dirs[..i] + [dirs[i]];
    assert dirs[i] in dirs;
    SelectMore(dirs[..i], dirs[i], gone);
    NotBefore(dirs, i, gone);
    OneMoreRemoved(all, Select(dirs[..i], gone), dirs[i]);
  }

  function AllRemovable(all: Backups, owned: set<string>, keep: int): set<string> {
    set n | n in all && Removable(all, owned, keep, n)
  }

  function Names(s: seq<string>): set<string> { set n | n in s }

  /** The names of `s` in `keep`, in order. */
  function Select(s: seq<string>, keep: set<string>): (r: seq<string>)
    ensures forall n :: n in r <==> n in s && n in keep
  {
    if s == [] then []
    else
      var before := Select(s[..|s| - 1], keep);
      assert s == s[..|s| - 1] + [s[|s| - 1]];
      if s[|s| - 1] in keep then before + [s[|s| - 1]] else before
  }

  /** The tests of the loop body: not protected, own, judged, and not a failure newer
      than the last verified one. */
  predicate Goes(claim: Claim, protect: seq<string>, last: string, owned: set<string>, p: string) {
    p !in protect && p in owned && claim != NoVerdict && !(claim == SaysFailed && NameLess(last, p))
  }

  lemma StartOfLoop(dirs: seq<string>, all: Backups, gone: set<string>)
    ensures Select(dirs[..0], gone) == [] && all - Names([]) == all
  {
  }

  lemma EndOfLoop(dirs: seq<string>, all: Backups, gone: set<string>, owned: set<string>, keep: int)
    requires Lists(dirs, all) && gone == AllRemovable(all, owned, keep)
    ensures Names(Select(dirs, gone)) == gone && Ascending(Select(dirs, gone)) && dirs[..|dirs|] == dirs
    ensures gone == {} ==> Select(dirs, gone) == [] && all - gone == all && Names([]) == {}
  {
    SelectAll(dirs, gone);
    SelectAscending(dirs, gone);
    if gone == {} {
      SelectNone(dirs, gone);
    }
  }

  lemma OneMoreRemoved(all: Backups, removed: seq<string>, p: string)
    requires p in all && p !in removed
    ensures p in all - Names(removed) && (all - Names(removed))[p] == all[p]
    ensures all - Names(removed) - {p} == all - Names(removed + [p])
  {
  }

  lemma SelectMore(s: seq<string>, p: string, keep: set<string>)
    ensures Select(s + [p], keep) == Select(s, keep) + if p in keep then [p] else []
  {
    assert (s + [p])[..|s|] == s;
  }

  lemma SelectAll(s: seq<string>, keep: set<string>)
    requires keep <= Names(s)
    ensures Names(Select(s, keep)) == keep
  {
  }

  lemma {:induction false} SelectNone(s: seq<string>, keep: set<string>)
    requires s == [] || keep == {}
    ensures Select(s, keep) == []
  {
    if s != [] {
      SelectNone(s[..|s| - 1], keep);
    }
  }

  lemma {:induction false} SelectAscending(s: seq<string>, keep: set<string>)
    requires Ascending(s)
    ensures Ascending(Select(s, keep))
  {
    if s != [] {
      var init, last := s[..|s| - 1], s[|s| - 1];
      SelectAscending(init, keep);
      forall i | 0 <= i < |Select(init, keep)|
        ensures NameLess(Select(init, keep)[i], last)
      {
        assert Select(init, keep)[i] in Select(init, keep);
      }
    }
  }

  lemma NotBefore(s: seq<string>, i: nat, keep: set<string>)
    requires Ascending(s) && i < |s|
    ensures s[i] !in Select(s[..i], keep)
  {
    NameLessIrreflexive(s[i]);
  }

  ghost predicate Lists(dirs: seq<string>, all: Backups) {
    Ascending(dirs) && forall n :: n in dirs <==> n in all
  }

  ghost predicate Ascending(s: seq<string>) {
    forall i, j :: 0 <= i < j < |s| ==> NameLess(s[i], s[j])
  }

  lemma SortedListing(listing: seq<string>, all: Backups)
    requires Listing(listing, all)
    ensures
      var dirs := Sort(listing, NameLess);
      Lists(dirs, all)
  {
    var dirs := Sort(listing, NameLess);
    assert Ordered(dirs, NameLess) by {
      NamesAreOrdered();
      SortOrders(listing, NameLess);
    }
    SortPermutes(listing, NameLess);
    forall n
      ensures n in dirs <==> n in listing
    {
      assert n in dirs <==> n in multiset(dirs);
      assert n in listing <==> n in multiset(listing);
    }
    forall i, j | 0 <= i < j < |dirs|
      ensures NameLess(dirs[i], dirs[j])
    {
      TwiceIn(dirs, i, j);
      OnceIn(listing, dirs[i]);
      NameLessTotal(dirs[i], dirs[j]);
    }
  }

  lemma {:induction false} OnceIn(s: seq<string>, x: string)
    requires forall i, j :: 0 <= i < j < |s| ==> s[i] != s[j]
    ensures multiset(s)[x] <= 1
  {
    if s != [] {
      assert s == [s[0]] + s[1..];
      OnceIn(s[1..], x);
      if s[0] == x {
        assert x !in s[1..];
        assert x !in multiset(s[1..]);
      }
    }
  }

  lemma NothingRemovable(dirs: seq<string>, all: Backups, owned: set<string>, keep: int)
    requires Lists(dirs, all) && Select(dirs, Verified(all)) == []
    ensures AllRemovable(all, owned, keep) == {}
  {
    forall n
      ensures !Removable(all, owned, keep, n)
    {
      NoneVerified(dirs, all, n);
    }
  }

  lemma NoneVerified(dirs: seq<string>, all: Backups, name: string)
    requires Lists(dirs, all) && Select(dirs, Verified(all)) == []
    ensures NewerVerified(all, name) == {}
  {
    forall n | n in all
      ensures all[n] != SaysVerified
    {
      assert n in Select(dirs, Verified(all)) <==> n in Verified(all);
    }
  }

  /** In an ascending list, place and order agree. */
  lemma PlaceIsOrder(s: seq<string>, i: nat, j: nat)
    requires Ascending(s) && i < |s| && j < |s|
    ensures NameLess(s[i], s[j]) <==> i < j
  {
    NameLessIrreflexive(s[i]);
    if j < i {
      NameLessAsymmetric(s[j], s[i]);
    }
  }

  /** A name splits an ascending list: what it precedes is the end of the list. */
  lemma {:induction false} SplitPoint(s: seq<string>, name: string) returns (k: nat)
    requires Ascending(s)
    ensures k <= |s| && forall i :: 0 <= i < |s| ==> (NameLess(name, s[i]) <==> k <= i)
  {
    if s == [] {
      k := 0;
    } else if NameLess(name, s[0]) {
      k := 0;
      forall i | 0 < i < |s|
        ensures NameLess(name, s[i])
      {
        NameLessTransitive(name, s[0], s[i]);
      }
    } else {
      k := SplitPoint(s[1..], name);
      k := k + 1;
      forall i | 0 <= i < |s|
        ensures NameLess(name, s[i]) <==> k <= i
      {
        if 0 < i {
          assert s[i] == s[1..][i - 1];
        }
      }
    }
  }

  lemma {:induction false} SuffixSize(s: seq<string>, k: nat)
    requires Ascending(s) && k <= |s|
    ensures |Names(s[k..])| == |s| - k
    decreases |s| - k
  {
    if k < |s| {
      SuffixSize(s, k + 1);
      assert s[k..] == [s[k]] + s[k + 1..];
      assert s[k] !in s[k + 1..] by {
        forall j | k + 1 <= j < |s|
          ensures s[j] != s[k]
        {
          PlaceIsOrder(s, k, j);
          PlaceIsOrder(s, k, k);
        }
      }
      assert Names(s[k..]) == {s[k]} + Names(s[k + 1..]);
    }
  }

  /** The newer verified ones are the end of the sorted verified list. */
  lemma NewerIsSuffix(dirs: seq<string>, all: Backups, name: string, k: nat)
    requires (forall n :: n in dirs <==> n in all) && k <= |Select(dirs, Verified(all))|
    requires Ascending(Select(dirs, Verified(all)))
    requires forall i :: 0 <= i < |Select(dirs, Verified(all))| ==> (NameLess(name, Select(dirs, Verified(all))[i]) <==> k <= i)
    ensures |NewerVerified(all, name)| == |Select(dirs, Verified(all))| - k
  {
    hide NameLess;
    var verified := Select(dirs, Verified(all));
    SuffixSize(verified, k);
    forall n
      ensures n in NewerVerified(all, name) <==> n in verified[k..]
    {
      if n in all && all[n] == SaysVerified {
        assert n in verified;
        var i :| 0 <= i < |verified| && verified[i] == n;
        InSuffix(verified, i, k);
      } else {
        assert n !in verified;
      }
    }
    assert NewerVerified(all, name) == Names(verified[k..]);
  }

  lemma InSuffix(s: seq<string>, i: nat, from: nat)
    requires Ascending(s) && i < |s| && from <= |s|
    ensures s[i] in s[from..] <==> from <= i
  {
    if from <= i {
      assert s[from..][i - from] == s[i];
    } else {
      forall j | from <= j < |s|
        ensures s[j] != s[i]
      {
        PlaceIsOrder(s, i, j);
        PlaceIsOrder(s, i, i);
      }
    }
  }

  /** The code's tests on one directory are the specification. */
  lemma Decision(dirs: seq<string>, all: Backups, owned: set<string>, keep: int, kept: nat, name: string)
    requires Lists(dirs, all) && name in all
    requires Select(dirs, Verified(all)) != []
    requires kept == if keep < 1 then 1 else if |Select(dirs, Verified(all))| < keep then |Select(dirs, Verified(all))| else keep
    ensures
      var verified := Select(dirs, Verified(all));
      name in AllRemovable(all, owned, keep) <==>
        Goes(all[name], verified[|verified| - kept..], verified[|verified| - 1], owned, name)
  {
    hide NameLess, Select, NewerVerified;
    var verified := Select(dirs, Verified(all));
    SelectAscending(dirs, Verified(all));
    var k := SplitPoint(verified, name);
    NewerIsSuffix(dirs, all, name, k);
    NoneNewer(all, name);
    if all[name] == SaysVerified {
      assert name in verified;
      var i :| 0 <= i < |verified| && verified[i] == name;
      JudgeVerified(verified, i, k, |verified| - kept);
    } else {
      assert name !in verified;
      JudgeFailed(verified, name, k, |verified| - kept);
    }
  }

  lemma NoneNewer(all: Backups, name: string)
    ensures NewerVerified(all, name) == {} <==> |NewerVerified(all, name)| == 0
  {
  }

  lemma JudgeVerified(verified: seq<string>, i: nat, k: nat, from: nat)
    requires Ascending(verified) && i < |verified| && from <= |verified| && k <= |verified|
    requires forall j :: 0 <= j < |verified| ==> (NameLess(verified[i], verified[j]) <==> k <= j)
    ensures k == i + 1 && (verified[i] in verified[from..] <==> from <= i)
  {
    PlaceIsOrder(verified, i, i);
    if i + 1 < |verified| {
      PlaceIsOrder(verified, i, i + 1);
    }
    InSuffix(verified, i, from);
  }

  lemma JudgeFailed(verified: seq<string>, name: string, k: nat, from: nat)
    requires verified != [] && name !in verified && from <= |verified| && k <= |verified|
    requires forall j :: 0 <= j < |verified| ==> (NameLess(name, verified[j]) <==> k <= j)
    ensures name !in verified[from..]
    ensures NameLess(verified[|verified| - 1], name) <==> k == |verified|
  {
    var last := verified[|verified| - 1];
    assert last in verified;
    NameLessTotal(name, last);
    NameLessAsymmetric(name, last);
  }

  // ------------------------------------------------------------------
  // Consequences
  // ------------------------------------------------------------------

  ghost function Pruned(all: Backups, owned: set<string>, keep: int): Backups {
    all - AllRemovable(all, owned, keep)
  }

  /** The newest verified backup always stays, as do foreign and unjudged ones and every
      failure after the last verified one. */
  lemma NeverRemoved(all: Backups, owned: set<string>, keep: int, name: string)
    requires name in all
    requires name !in owned || all[name] == NoVerdict || NewerVerified(all, name) == {}
    ensures name in Pruned(all, owned, keep)
  {
  }

  lemma NewerMeans(all: Backups, name: string, n: string)
    ensures n in NewerVerified(all, name) <==> n in all && all[n] == SaysVerified && NameLess(name, n)
  {
  }

  /** Exactly what stays: foreign ones, unjudged ones, the max(1, keep) newest verified ones, and
      the failures after the last verified one. Everything else goes. */
  lemma StaysExactly(all: Backups, owned: set<string>, keep: int, name: string)
    ensures name in Pruned(all, owned, keep) <==>
              && name in all
              && (|| name !in owned
                  || all[name] == NoVerdict
                  || (all[name] == SaysVerified && |NewerVerified(all, name)| < if keep < 1 then 1 else keep)
                  || (all[name] == SaysFailed && NewerVerified(all, name) == {}))
    ensures forall n :: n in NewerVerified(all, name) <==> n in all && all[n] == SaysVerified && NameLess(name, n)
  {
    NoneNewer(all, name);
    hide NewerVerified;
    forall n
      ensures n in NewerVerified(all, name) <==> n in all && all[n] == SaysVerified && NameLess(name, n)
    {
      NewerMeans(all, name, n);
    }
  }

  lemma ChainOfNewer(all: Backups, owned: set<string>, keep: int, name: string, n: string)
    requires n in NewerVerified(all, name) && Removable(all, owned, keep, n)
    ensures NewerVerified(all, n) < NewerVerified(all, name)
  {
    NameLessIrreflexive(n);
    assert n !in NewerVerified(all, n);
    forall m | m in NewerVerified(all, n)
      ensures m in NewerVerified(all, name)
    {
      NameLessTransitive(name, n, m);
    }
  }

  /** Pruning never changes how many of the `keep` newest verified ones stand after a name:
      what is removed from them was not among the newest. */
  lemma NewestStay(all: Backups, owned: set<string>, keep: int, name: string, want: nat)
    requires want <= |NewerVerified(all, name)| && want <= if keep < 1 then 1 else keep
    ensures want <= |NewerVerified(Pruned(all, owned, keep), name)|
    decreases |NewerVerified(all, name)|
  {
    var newer := NewerVerified(all, name);
    var after := NewerVerified(Pruned(all, owned, keep), name);
    if n :| n in newer && Removable(all, owned, keep, n) {
      ChainOfNewer(all, owned, keep, name, n);
      SubsetSize(NewerVerified(all, n), newer);
      NewestStay(all, owned, keep, n, want);
      forall m | m in NewerVerified(Pruned(all, owned, keep), n)
        ensures m in after
      {
        NameLessTransitive(name, n, m);
      }
      AtMost(NewerVerified(Pruned(all, owned, keep), n), after);
    } else {
      assert newer <= after;
      AtMost(newer, after);
    }
  }

  lemma {:induction false} AtMost(a: set<string>, b: set<string>)
    requires a <= b
    ensures |a| <= |b|
  {
    if a != {} {
      var x :| x in a;
      AtMost(a - {x}, b - {x});
    }
  }

  lemma SubsetSize(a: set<string>, b: set<string>)
    requires a < b
    ensures |a| < |b|
  {
    var x :| x in b && x !in a;
    AtMost(a, b - {x});
  }

  /** Running it again, with nothing new, removes nothing. */
  lemma PruneIsIdempotent(all: Backups, owned: set<string>, keep: int, name: string)
    ensures !Removable(Pruned(all, owned, keep), owned, keep, name)
  {
    var after := Pruned(all, owned, keep);
    if name in after && Removable(after, owned, keep, name) {
      assert NewerVerified(after, name) <= NewerVerified(all, name);
      AtMost(NewerVerified(after, name), NewerVerified(all, name));
    }
  }

  /** The `max(1, keep)` newest verified backups stay. */
  lemma KeepsTheNewest(all: Backups, owned: set<string>, keep: int, name: string)
    requires name in Verified(all) && |NewerVerified(all, name)| < if keep < 1 then 1 else keep
    ensures name in Verified(Pruned(all, owned, keep))
  {
  }
}

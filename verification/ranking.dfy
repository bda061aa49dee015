/** Frequency and recency of slash commands, and the menu order cached from it.

    The weight of a use `t` seconds old is `0.5 ** (t / HALF_LIFE_SECONDS)`. It is a
    parameter here, constrained by the laws of that exponential over the reals. */
module CommandUsage {
  import opened Wrappers
  import opened Sorting

  const HALF_LIFE_SECONDS := 2592000

  type Weight = int -> real

  ghost predicate HalfLife(w: Weight) {
    && w(0) == 1.0
    && w(HALF_LIFE_SECONDS) == 0.5
    && (forall t :: 0 < t ==> 0.0 < w(t) < 1.0)
    && (forall a, b :: 0 <= a && 0 <= b ==> w(a + b) == w(a) * w(b))
  }

  datatype Row = Row(useCount: nat, score: real, lastUsedAt: int, scoreUpdatedAt: int)

  /** The stored rows of one surface, by command. */
  type Table = map<string, Row>

  function Decay(w: Weight, score: real, elapsed: int): real {
    if elapsed <= 0 then score else score * w(elapsed)
  }

  // ------------------------------------------------------------------
  // Names
  // ------------------------------------------------------------------

  predicate IsSpace(c: char) { c == ' ' || c == '\t' || c == '\n' || c == '\r' }

  function StripLeft(s: string): string {
    if s != "" && IsSpace(s[0]) then StripLeft(s[1..]) else s
  }

  function StripRight(s: string): string {
    if s != "" && IsSpace(s[|s| - 1]) then StripRight(s[..|s| - 1]) else s
  }

  function StripSlashes(s: string): string {
    if s != "" && s[0] == '/' then StripSlashes(s[1..]) else s
  }

  /** The stored name of a command; a blank one is refused. */
  function Command(raw: string): Option<string> {
    var stripped := StripRight(StripLeft(raw));
    if stripped == "" then None else Some(StripSlashes(stripped))
  }

  predicate AllSpaces(s: string) { forall i :: 0 <= i < |s| ==> IsSpace(s[i]) }

  predicate AllSlashes(s: string) { forall i :: 0 <= i < |s| ==> s[i] == '/' }

  lemma {:induction false} StripLeftMeans(s: string) returns (before: string)
    ensures s == before + StripLeft(s) && AllSpaces(before) && (StripLeft(s) != "" ==> !IsSpace(StripLeft(s)[0]))
  {
    before := "";
    if s != "" && IsSpace(s[0]) {
      before := StripLeftMeans(s[1..]);
      before := [s[0]] + before;
    }
  }

  lemma {:induction false} StripRightMeans(s: string) returns (after: string)
    ensures s == StripRight(s) + after && AllSpaces(after)
    ensures StripRight(s) != "" ==> !IsSpace(StripRight(s)[|StripRight(s)| - 1])
    decreases |s|
  {
    after := "";
    if s != "" && IsSpace(s[|s| - 1]) {
      after := StripRightMeans(s[..|s| - 1]);
      after := after + [s[|s| - 1]];
      assert s == s[..|s| - 1] + [s[|s| - 1]];
    }
  }

  lemma {:induction false} StripSlashesMeans(s: string) returns (slashes: string)
    ensures s == slashes + StripSlashes(s) && AllSlashes(slashes) && (StripSlashes(s) != "" ==> StripSlashes(s)[0] != '/')
  {
    slashes := "";
    if s != "" && s[0] == '/' {
      slashes := StripSlashesMeans(s[1..]);
      slashes := [s[0]] + slashes;
    }
  }

  /** What the stored name is: the text without the white space around it and then without the
      slashes before it. A blank one is refused. */
  lemma CommandMeans(raw: string) returns (before: string, slashes: string, after: string)
    ensures Command(raw).None? <==> AllSpaces(raw)
    ensures Command(raw).Some? ==>
              var name := Command(raw).value;
              && raw == before + slashes + name + after
              && AllSpaces(before) && AllSlashes(slashes) && AllSpaces(after)
              && (name != "" ==> name[0] != '/' && !IsSpace(name[|name| - 1]))
              && (slashes == "" ==> name != "" && !IsSpace(name[0]))
  {
    before := StripLeftMeans(raw);
    var middle := StripLeft(raw);
    after := StripRightMeans(middle);
    var stripped := StripRight(middle);
    slashes := StripSlashesMeans(stripped);
    var name := StripSlashes(stripped);
    hide StripLeft, StripRight, StripSlashes;
    Nested(raw, before, middle, stripped, after, slashes, name);
  }

  lemma Nested(raw: string, before: string, middle: string, stripped: string, after: string, slashes: string, name: string)
    requires raw == before + middle && middle == stripped + after && stripped == slashes + name
    requires AllSpaces(before) && AllSpaces(after) && AllSlashes(slashes)
    requires middle != "" ==> !IsSpace(middle[0])
    requires stripped != "" ==> !IsSpace(stripped[|stripped| - 1])
    requires name != "" ==> name[0] != '/'
    ensures raw == before + slashes + name + after
    ensures stripped == "" <==> AllSpaces(raw)
    ensures stripped != "" && name != "" ==> !IsSpace(name[|name| - 1])
    ensures stripped != "" && slashes == "" ==> name != "" && !IsSpace(name[0])
  {
    assert raw == before + (slashes + name + after);
    if stripped == "" {
      assert raw == before + after;
    } else {
      assert raw[|before|] == middle[0] == stripped[0];
      assert name != "" ==> stripped[|stripped| - 1] == name[|name| - 1];
      assert slashes == "" ==> stripped == name;
    }
  }

  // ------------------------------------------------------------------
  // Recording and reading
  // ------------------------------------------------------------------

  function RecordCommandUse(w: Weight, rows: Table, cmd: string, ts: int): Table {
    if cmd !in rows then rows[cmd := Row(1, 1.0, ts, ts)]
    else
      var row := rows[cmd];
      rows[cmd := Row(row.useCount + 1, Decay(w, row.score, ts - row.scoreUpdatedAt) + 1.0, ts, ts)]
  }

  /** The score of a command, decayed to `now`; 0 without history. */
  function EffectiveScore(w: Weight, rows: Table, cmd: string, now: int): real {
    if cmd in rows then Decay(w, rows[cmd].score, now - rows[cmd].scoreUpdatedAt) else 0.0
  }

  function LastUse(rows: Table, cmd: string): int {
    if cmd in rows then rows[cmd].lastUsedAt else 0
  }

  function RecordAll(w: Weight, uses: seq<(string, int)>): Table {
    if uses == [] then map[]
    else
      var last := uses[|uses| - 1];
      RecordCommandUse(w, RecordAll(w, uses[..|uses| - 1]), last.0, last.1)
  }

  function TimesOf(uses: seq<(string, int)>, cmd: string): seq<int> {
    if uses == [] then []
    else
      var before := TimesOf(uses[..|uses| - 1], cmd);
      if uses[|uses| - 1].0 == cmd then before + [uses[|uses| - 1].1] else before
  }

  /** The reference: the sum of what each use is still worth. */
  function SumOfDecays(w: Weight, times: seq<int>, now: int): real {
    if times == [] then 0.0
    else SumOfDecays(w, times[..|times| - 1], now) + Decay(w, 1.0, now - times[|times| - 1])
  }

  predicate NonDecreasing(times: seq<int>) {
    forall i :: 0 < i < |times| ==> times[i - 1] <= times[i]
  }

  predicate NoneAfter(times: seq<int>, now: int) {
    forall i :: 0 <= i < |times| ==> times[i] <= now
  }

  lemma {:induction false} RowOfUses(w: Weight, uses: seq<(string, int)>, cmd: string)
    requires HalfLife(w)
    ensures
      var times := TimesOf(uses, cmd);
      var rows := RecordAll(w, uses);
      && (cmd in rows <==> times != [])
      && (cmd in rows ==>
            && rows[cmd].useCount == |times|
            && rows[cmd].lastUsedAt == rows[cmd].scoreUpdatedAt == times[|times| - 1]
            && 0.0 < rows[cmd].score <= |times| as real)
  {
    if uses != [] {
      RowOfUses(w, uses[..|uses| - 1], cmd);
      var rows := RecordAll(w, uses[..|uses| - 1]);
      var ts := uses[|uses| - 1].1;
      if uses[|uses| - 1].0 == cmd && cmd in rows {
        DecayShrinks(w, rows[cmd].score, ts - rows[cmd].scoreUpdatedAt);
      }
    }
  }

  // The three laws one at a time, so that proofs see only the instances they use.

  lemma WeightAdds(w: Weight, a: int, b: int)
    requires HalfLife(w) && 0 <= a && 0 <= b
    ensures w(a + b) == w(a) * w(b)
  {
  }

  lemma WeightBounds(w: Weight, t: int)
    requires HalfLife(w)
    ensures w(0) == 1.0
    ensures 0 <= t ==> 0.0 < w(t) <= 1.0
    ensures 0 < t ==> w(t) < 1.0
  {
  }

  lemma DecayIsScaling(w: Weight, score: real, elapsed: int)
    requires HalfLife(w) && 0 <= elapsed
    ensures Decay(w, score, elapsed) == score * w(elapsed)
  {
    hide HalfLife;
    WeightBounds(w, elapsed);
  }

  lemma DecayShrinks(w: Weight, score: real, elapsed: int)
    requires HalfLife(w) && 0.0 <= score
    ensures 0.0 <= Decay(w, score, elapsed) <= score
    ensures 0.0 < score ==> 0.0 < Decay(w, score, elapsed)
  {
    hide HalfLife;
    WeightBounds(w, elapsed);
    if 0 < elapsed {
      ScaleDown(score, w(elapsed));
    }
  }

  lemma ScaleDown(x: real, k: real)
    requires 0.0 <= x && 0.0 < k < 1.0
    ensures 0.0 <= x * k <= x && (0.0 < x ==> 0.0 < x * k < x)
  {
    assert x - x * k == x * (1.0 - k);
    if 0.0 < x {
      assert 0.0 < x * k;
      assert 0.0 < x * (1.0 - k);
    }
  }

  /** A score never exceeds the number of uses, whatever the clock did. */
  lemma ScoreAtMostUses(w: Weight, uses: seq<(string, int)>, cmd: string, now: int)
    requires HalfLife(w)
    ensures 0.0 <= EffectiveScore(w, RecordAll(w, uses), cmd, now) <= |TimesOf(uses, cmd)| as real
  {
    RowOfUses(w, uses, cmd);
    var rows := RecordAll(w, uses);
    if cmd in rows {
      DecayShrinks(w, rows[cmd].score, now - rows[cmd].scoreUpdatedAt);
    }
  }

  /** One more use, read at a time not before any use. */
  lemma OneMoreUse(w: Weight, score: real, updated: int, ts: int, now: int)
    requires HalfLife(w) && 0.0 < score && updated <= now && ts <= now
    ensures
      var read := Decay(w, Decay(w, score, ts - updated) + 1.0, now - ts);
      var sum := Decay(w, score, now - updated) + Decay(w, 1.0, now - ts);
      read <= sum && (read == sum <==> updated <= ts)
  {
    hide HalfLife, Decay;
    DecayIsScaling(w, 1.0, now - ts);
    DecayIsScaling(w, score, now - updated);
    var q := w(now - ts);
    if updated <= ts {
      var p, s := w(ts - updated), Decay(w, score, ts - updated);
      DecayIsScaling(w, score, ts - updated);
      WeightAdds(w, ts - updated, now - ts);
      assert (ts - updated) + (now - ts) == now - updated;
      DecayIsScaling(w, s + 1.0, now - ts);
      SpreadOne(score, p, q, w(now - updated), s);
    } else {
      var a, b, s := w(now - updated), w(updated - ts), Decay(w, score, ts - updated);
      NoDecay(w, score, ts - updated);
      assert (now - updated) + (updated - ts) == now - ts;
      WeightAdds(w, now - updated, updated - ts);
      DecayIsScaling(w, s + 1.0, now - ts);
      WeightBounds(w, now - updated);
      WeightBounds(w, updated - ts);
      DecayIsScaling(w, s, now - updated);
      ClockWentBack(s, a, b, q);
      assert Decay(w, s + 1.0, now - ts) == (s + 1.0) * q;
      assert Decay(w, score, now - updated) == s * a;
      assert Decay(w, 1.0, now - ts) == 1.0 * q;
      assert Decay(w, s + 1.0, now - ts) < Decay(w, score, now - updated) + Decay(w, 1.0, now - ts);
    }
  }

  lemma SpreadOne(score: real, p: real, q: real, pq: real, s: real)
    requires pq == p * q && s == score * p
    ensures (s + 1.0) * q == score * pq + 1.0 * q
  {
  }

  lemma ClockWentBack(s: real, a: real, b: real, ab: real)
    requires 0.0 < s && 0.0 < a && 0.0 < b < 1.0 && ab == a * b
    ensures (s + 1.0) * ab < s * a + 1.0 * ab
  {
    assert 0.0 < s * a;
    ScaleDown(s * a, b);
    Regroup(s, a, b);
  }

  lemma Regroup(s: real, a: real, b: real)
    ensures (s + 1.0) * (a * b) == (s * a) * b + a * b
  {
  }

  lemma NoDecay(w: Weight, score: real, elapsed: int)
    requires elapsed <= 0
    ensures Decay(w, score, elapsed) == score
  {
  }

  /** The score read at any time not before the uses is at most the sum of the decays of
      1 over the age of each use, and equals it exactly when the clock never went back
      between two uses: a wrong clock never earns priority. */
  lemma {:induction false} ClosedForm(w: Weight, uses: seq<(string, int)>, cmd: string, now: int)
    requires HalfLife(w) && NoneAfter(TimesOf(uses, cmd), now)
    ensures
      var read := EffectiveScore(w, RecordAll(w, uses), cmd, now);
      var sum := SumOfDecays(w, TimesOf(uses, cmd), now);
      read <= sum && (read == sum <==> NonDecreasing(TimesOf(uses, cmd)))
  {
    hide HalfLife, Decay, NonDecreasing;
    if uses == [] {
      ShortIsNonDecreasing([]);
    } else {
      var before := uses[..|uses| - 1];
      var times := TimesOf(before, cmd);
      var ts := uses[|uses| - 1].1;
      RowOfUses(w, before, cmd);
      LastOfUses(w, uses, cmd, now);
      hide RecordAll, SumOfDecays, TimesOf, EffectiveScore, NoneAfter;
      if uses[|uses| - 1].0 == cmd {
        Prefix(times, ts, now);
        ClosedForm(w, before, cmd, now);
        ScoreAt(w, RecordAll(w, before), cmd, now);
        if times != [] {
          var row := RecordAll(w, before)[cmd];
          OneMoreUse(w, row.score, row.scoreUpdatedAt, ts, now);
          OneMoreTime(times, ts);
        } else {
          ShortIsNonDecreasing([ts]);
          NoTimes(w, now);
        }
      } else {
        ClosedForm(w, before, cmd, now);
      }
    }
  }

  lemma NoTimes(w: Weight, now: int)
    ensures SumOfDecays(w, [], now) == 0.0
  {
  }

  lemma ScoreAt(w: Weight, rows: Table, cmd: string, now: int)
    ensures EffectiveScore(w, rows, cmd, now)
            == if cmd in rows then Decay(w, rows[cmd].score, now - rows[cmd].scoreUpdatedAt) else 0.0
  {
  }

  /** What the last use changes, for any command. */
  lemma LastOfUses(w: Weight, uses: seq<(string, int)>, cmd: string, now: int)
    requires uses != []
    ensures
      var before, ts := uses[..|uses| - 1], uses[|uses| - 1].1;
      var rows, times := RecordAll(w, before), TimesOf(before, cmd);
      if uses[|uses| - 1].0 != cmd then
        TimesOf(uses, cmd) == times && EffectiveScore(w, RecordAll(w, uses), cmd, now) == EffectiveScore(w, rows, cmd, now)
      else
        && TimesOf(uses, cmd) == times + [ts]
        && SumOfDecays(w, times + [ts], now) == SumOfDecays(w, times, now) + Decay(w, 1.0, now - ts)
        && EffectiveScore(w, RecordAll(w, uses), cmd, now)
           == Decay(w, (if cmd in rows then Decay(w, rows[cmd].score, ts - rows[cmd].scoreUpdatedAt) + 1.0 else 1.0), now - ts)
  {
    hide Decay;
    var times, ts := TimesOf(uses[..|uses| - 1], cmd), uses[|uses| - 1].1;
    assert (times + [ts])[..|times|] == times;
  }

  lemma ShortIsNonDecreasing(times: seq<int>)
    requires |times| <= 1
    ensures NonDecreasing(times)
  {
  }

  lemma Prefix(times: seq<int>, ts: int, now: int)
    requires NoneAfter(times + [ts], now)
    ensures NoneAfter(times, now) && ts <= now
  {
    var all := times + [ts];
    assert all[|times|] == ts;
    forall i | 0 <= i < |times|
      ensures times[i] <= now
    {
      assert all[i] == times[i];
    }
  }

  lemma OneMoreTime(times: seq<int>, ts: int)
    requires times != []
    ensures NonDecreasing(times + [ts]) <==> NonDecreasing(times) && times[|times| - 1] <= ts
  {
    var all := times + [ts];
    if NonDecreasing(all) {
      forall i | 0 < i < |times|
        ensures times[i - 1] <= times[i]
      {
        assert all[i - 1] <= all[i];
      }
      assert all[|times| - 1] <= all[|times|];
    }
  }

  /** Six half-lives leave a sixty-fourth: 100 points read as 1.5625. */
  lemma SixHalfLives(w: Weight, rows: Table, cmd: string)
    requires HalfLife(w) && cmd in rows
    ensures EffectiveScore(w, rows, cmd, rows[cmd].scoreUpdatedAt + 6 * HALF_LIFE_SECONDS) == rows[cmd].score / 64.0
  {
    assert w(HALF_LIFE_SECONDS) == 0.5;
    hide HalfLife;
    WeightAdds(w, HALF_LIFE_SECONDS, HALF_LIFE_SECONDS);
    WeightAdds(w, 2 * HALF_LIFE_SECONDS, 2 * HALF_LIFE_SECONDS);
    WeightAdds(w, 4 * HALF_LIFE_SECONDS, 2 * HALF_LIFE_SECONDS);
  }

  // ------------------------------------------------------------------
  // Ranking
  // ------------------------------------------------------------------

  function Indices(n: nat): (s: seq<nat>)
    ensures |s| == n && forall i :: 0 <= i < n ==> s[i] == i
  {
    seq(n, i => i)
  }

  function NameAt(names: seq<string>, i: nat): string {
    if i < |names| then Command(names[i]).GetOr("") else ""
  }

  /** Menu order of two positions: higher score, then later use, then earlier position. */
  function Before(w: Weight, rows: Table, names: seq<string>, now: int): (nat, nat) -> bool {
    (i: nat, j: nat) =>
      var a, b := EffectiveScore(w, rows, NameAt(names, i), now), EffectiveScore(w, rows, NameAt(names, j), now);
      var la, lb := LastUse(rows, NameAt(names, i)), LastUse(rows, NameAt(names, j));
      a > b || (a == b && (la > lb || (la == lb && i < j)))
  }

  predicate AllNamed(names: seq<string>) { forall i :: 0 <= i < |names| ==> Command(names[i]).Some? }

  function Pick(names: seq<string>, order: seq<nat>): seq<string>
    requires forall i :: 0 <= i < |order| ==> order[i] < |names|
  {
    seq(|order|, i requires 0 <= i < |order| => names[order[i]])
  }

  function RankOrder(w: Weight, rows: Table, names: seq<string>, now: int): (order: seq<nat>)
    ensures multiset(order) == multiset(Indices(|names|))
    ensures |order| == |names| && forall i :: 0 <= i < |order| ==> order[i] < |names|
  {
    var order := Sort(Indices(|names|), Before(w, rows, names, now));
    SortPermutes(Indices(|names|), Before(w, rows, names, now));
    PermutedIndices(order, |names|);
    order
  }

  lemma PermutedIndices(order: seq<nat>, n: nat)
    requires multiset(order) == multiset(Indices(n))
    ensures |order| == n && forall i :: 0 <= i < |order| ==> order[i] < n
  {
    assert |order| == |multiset(order)| == n;
    forall i | 0 <= i < |order|
      ensures order[i] < n
    {
      assert order[i] in multiset(Indices(n));
    }
  }

  /** The menu: the given names in rank order, or nothing when one of them is blank. */
  function Ranking(w: Weight, rows: Table, names: seq<string>, now: int): Option<seq<string>> {
    if AllNamed(names) then Some(Pick(names, RankOrder(w, rows, names, now))) else None
  }

  /** `rank_commands`: one entry per name, then a sort. */
  method RankCommands(w: Weight, rows: Table, names: seq<string>, now: int)
    returns (r: Option<seq<string>>, ghost order: seq<nat>)
    ensures r == Ranking(w, rows, names, now)
    ensures r.None? <==> exists i :: 0 <= i < |names| && Command(names[i]).None?
    ensures r.Some? ==> Reordered(names, r.value, order) && BestFirst(w, rows, names, now, order)
  {
    order := RankOrder(w, rows, names, now);
    var entries: seq<(real, int, nat)> := [];
    for index := 0 to |names|
      invariant |entries| == index
      invariant forall i :: 0 <= i < index ==> Command(names[i]).Some?
      invariant forall i :: 0 <= i < index ==>
                              entries[i] == (EffectiveScore(w, rows, NameAt(names, i), now),
                                             LastUse(rows, NameAt(names, i)), i)
    {
      var cmd := Command(names[index]);
      if cmd.None? {
        return None, order;
      }
      entries := entries + [(EffectiveScore(w, rows, cmd.value, now), LastUse(rows, cmd.value), index)];
    }
    var less := (i: nat, j: nat) =>
      i < |entries| && j < |entries|
      && (entries[i].0 > entries[j].0
          || (entries[i].0 == entries[j].0
              && (entries[i].1 > entries[j].1 || (entries[i].1 == entries[j].1 && entries[i].2 < entries[j].2))));
    var sorted := Sort(Indices(|names|), less);
    SortAgrees(Indices(|names|), less, Before(w, rows, names, now));
    SortPermutes(Indices(|names|), less);
    PermutedIndices(sorted, |names|);
    r := Some(Pick(names, sorted));
    RankedBestFirst(w, rows, names, now);
  }

  /** Each position once, and the name from there. */
  ghost predicate Reordered(names: seq<string>, menu: seq<string>, order: seq<nat>) {
    && |order| == |menu| == |names|
    && (forall k :: 0 <= k < |order| ==> order[k] < |names| && menu[k] == names[order[k]])
    && (forall i, j :: 0 <= i < j < |order| ==> order[i] != order[j])
  }

  /** Higher score first, then later use, then given position; without history, score and time
      of last use are 0. */
  ghost predicate BestFirst(w: Weight, rows: Table, names: seq<string>, now: int, order: seq<nat>)
    requires forall k :: 0 <= k < |order| ==> order[k] < |names|
    requires forall i :: 0 <= i < |names| ==> Command(names[i]).Some?
  {
    forall i, j :: 0 <= i < j < |order| ==>
                     var a, b := Command(names[order[i]]).value, Command(names[order[j]]).value;
                     var sa := if a in rows then Decay(w, rows[a].score, now - rows[a].scoreUpdatedAt) else 0.0;
                     var sb := if b in rows then Decay(w, rows[b].score, now - rows[b].scoreUpdatedAt) else 0.0;
                     var la := if a in rows then rows[a].lastUsedAt else 0;
                     var lb := if b in rows then rows[b].lastUsedAt else 0;
                     sa > sb || (sa == sb && (la > lb || (la == lb && order[i] < order[j])))
  }

  lemma RankedBestFirst(w: Weight, rows: Table, names: seq<string>, now: int)
    requires AllNamed(names)
    ensures
      var order := RankOrder(w, rows, names, now);
      Reordered(names, Pick(names, order), order) && BestFirst(w, rows, names, now, order)
  {
    hide Decay;
    var order := RankOrder(w, rows, names, now);
    RankingIsUnique(w, rows, names, now, order);
    forall i, j | 0 <= i < j < |order|
      ensures order[i] != order[j]
    {
      DistinctPositions(order, |names|, i, j);
    }
    forall i, j | 0 <= i < j < |order|
      ensures Before(w, rows, names, now)(order[i], order[j])
    {
    }
  }

  lemma BeforeIsStrictTotal(w: Weight, rows: Table, names: seq<string>, now: int)
    ensures StrictTotal(Before(w, rows, names, now))
  {
  }

  ghost predicate IsRanking(w: Weight, rows: Table, names: seq<string>, now: int, order: seq<nat>) {
    && multiset(order) == multiset(Indices(|names|))
    && forall i, j :: 0 <= i < j < |order| ==> Before(w, rows, names, now)(order[i], order[j])
  }

  /** The order is the only permutation of the positions in which every earlier one
      beats every later one by score, then last use, then given position. */
  lemma RankingIsUnique(w: Weight, rows: Table, names: seq<string>, now: int, order: seq<nat>)
    ensures IsRanking(w, rows, names, now, order) <==> order == RankOrder(w, rows, names, now)
  {
    var less := Before(w, rows, names, now);
    var mine := RankOrder(w, rows, names, now);
    BeforeIsStrictTotal(w, rows, names, now);
    SortOrders(Indices(|names|), less);
    assert IsRanking(w, rows, names, now, mine) by {
      forall i, j | 0 <= i < j < |mine|
        ensures less(mine[i], mine[j])
      {
        DistinctPositions(mine, |names|, i, j);
      }
    }
    if IsRanking(w, rows, names, now, order) {
      OrderedIsUnique(order, mine, less);
    }
  }

  lemma DistinctPositions(order: seq<nat>, n: nat, i: nat, j: nat)
    requires multiset(order) == multiset(Indices(n)) && i < j < |order|
    ensures order[i] != order[j]
  {
    PermutedIndices(order, n);
    TwiceIn(order, i, j);
    CountOnce(n, order[i]);
  }

  lemma CountOnce(n: nat, x: nat)
    requires x < n
    ensures multiset(Indices(n))[x] == 1
  {
    var s := Indices(n);
    assert s == s[..x] + [x] + s[x + 1..];
    assert x !in s[..x] && x !in s[x + 1..];
  }

  predicate NoRowAfter(rows: Table, now: int) {
    forall cmd :: cmd in rows ==> rows[cmd].scoreUpdatedAt <= now
  }

  /** Waiting scales every score by the same factor. */
  lemma WaitingScales(w: Weight, rows: Table, cmd: string, now: int, later: int)
    requires HalfLife(w) && NoRowAfter(rows, now) && now <= later
    ensures 0.0 < w(later - now)
    ensures EffectiveScore(w, rows, cmd, later) == EffectiveScore(w, rows, cmd, now) * w(later - now)
  {
    hide HalfLife, Decay;
    WeightBounds(w, later - now);
    if cmd in rows {
      var row := rows[cmd];
      var age := now - row.scoreUpdatedAt;
      DecayIsScaling(w, row.score, age);
      DecayIsScaling(w, row.score, later - row.scoreUpdatedAt);
      WeightAdds(w, age, later - now);
      assert row.score * (w(age) * w(later - now)) == row.score * w(age) * w(later - now);
    }
  }

  lemma SameOrderLater(w: Weight, rows: Table, names: seq<string>, now: int, later: int)
    requires HalfLife(w) && NoRowAfter(rows, now) && now <= later
    ensures Ranking(w, rows, names, now) == Ranking(w, rows, names, later)
  {
    hide HalfLife, EffectiveScore, NameAt;
    var less, other := Before(w, rows, names, now), Before(w, rows, names, later);
    forall i, j | i in Indices(|names|) && j in Indices(|names|)
      ensures less(i, j) == other(i, j)
    {
      WaitingScales(w, rows, NameAt(names, i), now, later);
      WaitingScales(w, rows, NameAt(names, j), now, later);
      ScalingKeepsOrder(EffectiveScore(w, rows, NameAt(names, i), now),
                        EffectiveScore(w, rows, NameAt(names, j), now), w(later - now));
    }
    SortAgrees(Indices(|names|), less, other);
  }

  lemma ScalingKeepsOrder(a: real, b: real, k: real)
    requires 0.0 < k
    ensures (a > b <==> a * k > b * k) && (a == b <==> a * k == b * k)
  {
    assert a * k - b * k == (a - b) * k;
    if a > b {
      assert (a - b) * k > 0.0;
    } else if a < b {
      assert (b - a) * k > 0.0;
      assert b * k - a * k == (b - a) * k;
    }
  }

  /** Time alone never reorders the menu, at any two times not before the stored scores. */
  lemma RankingIsTimeless(w: Weight, rows: Table, names: seq<string>, now: int, other: int)
    requires HalfLife(w) && NoRowAfter(rows, now) && NoRowAfter(rows, other)
    ensures Ranking(w, rows, names, now) == Ranking(w, rows, names, other)
  {
    if now <= other {
      SameOrderLater(w, rows, names, now, other);
    } else {
      SameOrderLater(w, rows, names, other, now);
    }
  }
}

/** The CLI menu: one order computed from the table and kept until a command is run or
    the list of commands changes. */
module CliRanking {
  import opened Wrappers
  import opened CommandUsage

  class Menu {
    const weight: Weight
    var rows: Table
    var cachedOrder: Option<seq<string>>
    var cachedKey: Option<seq<string>>
    var dirty: bool
    var tableReads: nat
    ghost var cachedAt: int
    /** The table as it was when the cache was filled. */
    ghost var filledFrom: Table

    ghost predicate Valid()
      reads this
    {
      && HalfLife(weight)
      && (!dirty && cachedOrder.Some? && cachedKey.Some? ==>
            Ranking(weight, filledFrom, cachedKey.value, cachedAt) == cachedOrder)
    }

    /** The cache is known to be stale, or was filled from the table as it is. Only another
        process can end this. */
    ghost predicate InStep()
      reads this
    {
      dirty || filledFrom == rows
    }

    constructor (weight: Weight, rows: Table)
      requires HalfLife(weight)
      ensures Valid() && InStep() && this.weight == weight && this.rows == rows && dirty && tableReads == 0
    {
      this.weight := weight;
      this.rows := rows;
      filledFrom := rows;
      cachedOrder, cachedKey, dirty, tableReads := None, None, true, 0;
    }

    predicate Hit(names: seq<string>)
      reads this
    {
      !dirty && cachedKey == Some(names) && cachedOrder.Some?
    }

    /** Whatever list is asked for next, the cache does not answer. */
    method Invalidate()
      requires Valid()
      modifies this`dirty
      ensures Valid() && InStep() && forall names :: !Hit(names)
    {
      dirty := true;
    }

    /** One dispatched command. `connected` says whether the database exists and the
        transaction went through; any failure is swallowed and changes nothing. */
    method RecordUse(command: string, now: int, connected: bool)
      requires Valid()
      modifies this`dirty, this`rows
      ensures Valid() && (old(InStep()) ==> InStep())
      ensures
        if connected && Command(command).Some? then
          dirty && rows == RecordCommandUse(weight, old(rows), Command(command).value, now)
        else
          dirty == old(dirty) && rows == old(rows)
    {
      var cmd := Command(command);
      if !connected || cmd.None? {
        return;
      }
      dirty := true;
      rows := RecordCommandUse(weight, rows, cmd.value, now);
    }

    /** Another process writes the table. This one's cache does not notice. */
    method WrittenElsewhere(table: Table)
      requires Valid()
      modifies this`rows
      ensures Valid() && rows == table && (InStep() <==> dirty || table == filledFrom)
      ensures forall names :: Hit(names) <==> old(Hit(names))
    {
      rows := table;
    }

    /** The menu. From a database that answers it is the fresh ranking, cached or not, as
        long as neither `now` nor the time the cache was filled precedes a stored score, and
        no other process wrote since; without a database, or with a blank name, it is the
        given list. A cached answer is always the ranking of the table it was filled from, so
        that it is the fresh one exactly when that table ranks alike. */
    method Ranked(names: seq<string>, now: int, connected: bool) returns (r: seq<string>)
      requires Valid()
      modifies this`cachedOrder, this`cachedKey, this`dirty, this`tableReads, this`cachedAt, this`filledFrom
      ensures Valid() && (old(InStep()) ==> InStep())
      ensures old(Hit(names)) && NoRowAfter(old(filledFrom), now) && NoRowAfter(old(filledFrom), old(cachedAt)) ==>
                && Some(r) == Ranking(weight, old(filledFrom), names, now)
                && (Some(r) == Ranking(weight, rows, names, now)
                    <==> Ranking(weight, old(filledFrom), names, now) == Ranking(weight, rows, names, now))
      ensures old(InStep()) && NoRowAfter(rows, now) && NoRowAfter(rows, old(cachedAt)) ==>
                r == if old(Hit(names)) || connected then Ranking(weight, rows, names, now).GetOr(names) else names
      ensures !old(Hit(names)) ==>
                r == if connected then Ranking(weight, rows, names, now).GetOr(names) else names
      ensures tableReads == old(tableReads) + if !old(Hit(names)) && connected && AllNamed(names) then 1 else 0
      ensures !old(Hit(names)) && connected && AllNamed(names) ==>
                Hit(names) && InStep() && cachedAt == now && filledFrom == rows
      ensures old(Hit(names)) || !connected || !AllNamed(names) ==>
                cachedOrder == old(cachedOrder) && cachedKey == old(cachedKey) && dirty == old(dirty)
                && cachedAt == old(cachedAt) && filledFrom == old(filledFrom)
    {
      if !dirty && cachedKey == Some(names) && cachedOrder.Some? {
        if NoRowAfter(filledFrom, now) && NoRowAfter(filledFrom, cachedAt) {
          RankingIsTimeless(weight, filledFrom, names, now, cachedAt);
        }
        return cachedOrder.value;
      }
      if !connected {
        return names;
      }
      var order, _ := RankCommands(weight, rows, names, now);
      if order.None? {
        return names;
      }
      tableReads := tableReads + 1;
      filledFrom := rows;
      cachedOrder, cachedKey, dirty, cachedAt := order, Some(names), false, now;
      r := order.value;
    }
  }
}

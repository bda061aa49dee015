/** The supervisor's bounded tail buffer: read to the end, keep the last bytes. */
module Drain {

  /** What one `read` call gives; an empty `Data` is end of file. */
  datatype Read<T> = Data(chunk: seq<T>) | Interrupted | Broken

  datatype Captured<T> = Captured(bytes: seq<T>, totalBytes: nat, truncated: bool, complete: bool)

  function Tail<T>(s: seq<T>, cap: nat): (t: seq<T>)
    ensures |t| == if |s| < cap then |s| else cap
  {
    if |s| <= cap then s else s[|s| - cap..]
  }

  predicate Ends<T(==)>(read: Read<T>) { read == Data([]) || read.Broken? }

  /** The bytes of the reads up to end of file or a read error, interruptions retried. */
  function Stream<T(==)>(inputs: seq<Read<T>>): seq<T> {
    if inputs == [] || Ends(inputs[0]) then []
    else if inputs[0].Interrupted? then Stream(inputs[1..])
    else inputs[0].chunk + Stream(inputs[1..])
  }

  /** All the bytes that a series of reads gave. */
  function Chunks<T(==)>(inputs: seq<Read<T>>): seq<T> {
    if inputs == [] then [] else (if inputs[0].Data? then inputs[0].chunk else []) + Chunks(inputs[1..])
  }

  /** The stream is what all the reads before the first end of file or error gave. */
  lemma {:induction false} StreamIsEveryChunk<T>(inputs: seq<Read<T>>, k: nat)
    requires k <= |inputs| && (k < |inputs| ==> inputs[k] == Data([]) || inputs[k] == Broken)
    requires forall i :: 0 <= i < k ==> inputs[i] != Data([]) && inputs[i] != Broken
    ensures Stream(inputs) == Chunks(inputs[..k])
    decreases k
  {
    if 0 < k {
      StreamIsEveryChunk(inputs[1..], k - 1);
      assert inputs[..k][1..] == inputs[1..][..k - 1];
    }
  }

  /** Some read before the end fills the window by itself. */
  predicate FillsWindow<T(==)>(inputs: seq<Read<T>>, cap: nat) {
    inputs != [] && !Ends(inputs[0])
    && ((inputs[0].Data? && cap <= |inputs[0].chunk|) || FillsWindow(inputs[1..], cap))
  }

  lemma TailIsLast<T>(s: seq<T>, cap: nat)
    ensures forall i :: 0 <= i < |Tail(s, cap)| ==> Tail(s, cap)[i] == s[|s| - |Tail(s, cap)| + i]
  {
  }

  lemma TailOfTail<T>(old_: seq<T>, chunk: seq<T>, cap: nat)
    ensures Tail(Tail(old_, cap) + chunk, cap) == Tail(old_ + chunk, cap)
  {
  }

  lemma StreamStep<T>(inputs: seq<Read<T>>, i: nat, cap: nat)
    requires i < |inputs|
    ensures Stream(inputs[i..]) ==
            if Ends(inputs[i]) then [] else if inputs[i].Interrupted? then Stream(inputs[i + 1..])
            else inputs[i].chunk + Stream(inputs[i + 1..])
    ensures FillsWindow(inputs[i..], cap) <==>
              !Ends(inputs[i]) && ((inputs[i].Data? && cap <= |inputs[i].chunk|) || FillsWindow(inputs[i + 1..], cap))
  {
    assert inputs[i..][0] == inputs[i] && inputs[i..][1..] == inputs[i + 1..];
  }

  lemma AtTheEnds<T>(inputs: seq<Read<T>>, cap: nat)
    ensures inputs[0..] == inputs && Tail<T>([], cap) == []
    ensures Stream(inputs[|inputs|..]) == [] && !FillsWindow(inputs[|inputs|..], cap)
  {
  }

  /** `drain`: exactly the last `min(total, cap)` bytes and the exact total, however the
      stream was cut into reads. The flag is exact but for one case: a stream of exactly
      `cap` bytes that one read delivers whole is flagged too. */
  method ReadToEnd<T(==)>(inputs: seq<Read<T>>, cap: nat) returns (c: Captured<T>)
    ensures c.bytes == Tail(Stream(inputs), cap)
    ensures |c.bytes| == if |Stream(inputs)| < cap then |Stream(inputs)| else cap
    ensures forall i :: 0 <= i < |c.bytes| ==> c.bytes[i] == Stream(inputs)[|Stream(inputs)| - |c.bytes| + i]
    ensures c.totalBytes == |Stream(inputs)|
    ensures c.truncated <==> cap < |Stream(inputs)| || FillsWindow(inputs, cap)
    ensures c.complete
  {
    var keep: seq<T> := [];
    var total := 0;
    var truncated := false;
    var i := 0;
    ghost var seen: seq<T> := [];
    ghost var filled := false;
    AtTheEnds(inputs, cap);
    hide Stream, FillsWindow, Tail;
    while i < |inputs|
      invariant 0 <= i <= |inputs|
      invariant seen + Stream(inputs[i..]) == Stream(inputs)
      invariant FillsWindow(inputs, cap) <==> filled || FillsWindow(inputs[i..], cap)
      invariant total == |seen| && keep == Tail(seen, cap)
      invariant truncated <==> cap < |seen| || filled
      invariant filled ==> cap <= |seen|
    {
      StreamStep(inputs, i, cap);
      match inputs[i] {
        case Interrupted =>
        case Broken => break;
        case Data(chunk) =>
          if chunk == [] {
            break;
          }
          var cut;
          TailOfTail(seen, chunk, cap);
          keep, cut := Absorb(keep, chunk, cap);
          total := total + |chunk|;
          truncated := truncated || cut;
          filled := filled || cap <= |chunk|;
          seen := seen + chunk;
      }
      i := i + 1;
    }
    assert seen + [] == seen;
    TailIsLast(Stream(inputs), cap);
    c := Captured(keep, total, truncated, true);
  }

  /** One read: its own tail when it fills the window, else what fits of the old bytes
      before it. */
  method Absorb<T>(window: seq<T>, chunk: seq<T>, cap: nat) returns (keep: seq<T>, cut: bool)
    ensures keep == Tail(window + chunk, cap)
    ensures cut <==> cap <= |chunk| || cap < |window| + |chunk|
  {
    if cap <= |chunk| {
      keep, cut := chunk[|chunk| - cap..], true;
    } else {
      keep, cut := MakeRoom(window, |chunk|, cap);
      keep := keep + chunk;
    }
  }

  /** The inner loop: pops the oldest bytes until `n` more fit. */
  method MakeRoom<T>(window: seq<T>, n: nat, cap: nat) returns (keep: seq<T>, popped: bool)
    requires n <= cap
    ensures keep == Tail(window, cap - n)
    ensures popped <==> cap < |window| + n
  {
    keep, popped := window, false;
    while cap < |keep| + n
      invariant |keep| <= |window| && keep == window[|window| - |keep|..]
      invariant popped <==> |keep| < |window|
      invariant popped ==> cap <= |keep| + n
    {
      keep := keep[1..];
      popped := true;
    }
  }

  lemma {:induction false} FilledMeansLong<T>(inputs: seq<Read<T>>, cap: nat)
    requires FillsWindow(inputs, cap)
    ensures cap <= |Stream(inputs)|
  {
    if !(inputs[0].Data? && cap <= |inputs[0].chunk|) {
      FilledMeansLong(inputs[1..], cap);
    }
  }

  /** The flag never misses a loss, never fires on a stream shorter than the window, and
      is exact when no single read can fill the window. */
  lemma TruncatedFlag<T>(inputs: seq<Read<T>>, cap: nat, buffer: nat)
    requires forall i :: 0 <= i < |inputs| && inputs[i].Data? ==> |inputs[i].chunk| <= buffer
    ensures
      var flag := cap < |Stream(inputs)| || FillsWindow(inputs, cap);
      && (cap < |Stream(inputs)| ==> flag)
      && (flag ==> cap <= |Stream(inputs)|)
      && (buffer < cap ==> (flag <==> cap < |Stream(inputs)|))
  {
    if FillsWindow(inputs, cap) {
      FilledMeansLong(inputs, cap);
    }
    if buffer < cap {
      NoReadFills(inputs, cap, buffer);
    }
  }

  lemma {:induction false} NoReadFills<T>(inputs: seq<Read<T>>, cap: nat, buffer: nat)
    requires forall i :: 0 <= i < |inputs| && inputs[i].Data? ==> |inputs[i].chunk| <= buffer
    requires buffer < cap
    ensures !FillsWindow(inputs, cap)
  {
    if inputs != [] {
      NoReadFills(inputs[1..], cap, buffer);
    }
  }
}

/** The direction-change click over many ticks. Each tick `scheduleGrains`
    compares the current direction with the remembered one and then updates
    the memory (src/App.jsx:566-568); folding that over a run of ticks shows
    that clicks are exactly the changes between successive non-zero
    directions. */
module ClickTrace {
  import opened Scheduler

  /** The clicks fired by a run of ticks whose directions are `dirs`, starting
      from the remembered direction `lastDir`. */
  function Clicks(lastDir: int, dirs: seq<int>): nat
    decreases |dirs|
  {
    if dirs == [] then 0
    else (if ClickFires(dirs[0], lastDir) then 1 else 0) + Clicks(Remember(dirs[0], lastDir), dirs[1..])
  }

  /** The non-zero entries of a direction sequence, in order. */
  function NonZero(s: seq<int>): seq<int>
    decreases |s|
  {
    if s == [] then [] else (if s[0] != 0 then [s[0]] else []) + NonZero(s[1..])
  }

  /** The number of adjacent positions where a sequence changes value. */
  function Changes(s: seq<int>): nat
    decreases |s|
  {
    if |s| < 2 then 0 else (if s[0] != s[1] then 1 else 0) + Changes(s[1..])
  }

  /** One click per reversal: the clicks of a run are the changes in the
      sequence of non-zero directions, the remembered one included. Pauses
      inside the deadzone neither click nor break a run. */
  lemma {:induction false} ClicksAreReversals(lastDir: int, dirs: seq<int>)
    ensures Clicks(lastDir, dirs) == Changes(NonZero([lastDir] + dirs))
    decreases |dirs|
  {
    var all := [lastDir] + dirs;
    assert all[1..] == dirs;
    if dirs == [] {
      assert |NonZero(all)| <= 1 by {
        assert NonZero(all) == (if lastDir != 0 then [lastDir] else []) + NonZero([]);
      }
    } else {
      var d, rest := dirs[0], dirs[1..];
      ClicksAreReversals(Remember(d, lastDir), rest);
      assert NonZero(dirs) == (if d != 0 then [d] else []) + NonZero(rest);
      assert NonZero(all) == (if lastDir != 0 then [lastDir] else []) + NonZero(dirs);
      var tail := [Remember(d, lastDir)] + rest;
      assert tail[1..] == rest;
      assert NonZero(tail) == (if Remember(d, lastDir) != 0 then [Remember(d, lastDir)] else []) + NonZero(rest);
      assert Clicks(lastDir, dirs) == (if ClickFires(d, lastDir) then 1 else 0) + Clicks(Remember(d, lastDir), rest);
      if d == 0 || lastDir == 0 {
        assert NonZero(all) == NonZero(tail);
      } else {
        var x := [lastDir] + ([d] + NonZero(rest));
        assert NonZero(all) == x;
        assert x[1..] == [d] + NonZero(rest) == NonZero(tail);
        assert Changes(x) == (if lastDir != d then 1 else 0) + Changes(x[1..]);
      }
    }
  }

  /** Holding one direction, with or without pauses inside the deadzone,
      never clicks. */
  lemma {:induction false} HeldDirectionIsSilent(dir: int, lastDir: int, dirs: seq<int>)
    requires lastDir == 0 || lastDir == dir
    requires forall i :: 0 <= i < |dirs| ==> dirs[i] == 0 || dirs[i] == dir
    ensures Clicks(lastDir, dirs) == 0
    decreases |dirs|
  {
    if dirs != [] {
      HeldDirectionIsSilent(dir, Remember(dirs[0], lastDir), dirs[1..]);
    }
  }

  /** A single reversal after a held run, with any pauses, clicks exactly
      once. */
  lemma ReversalClicksOnce(dir: int, run: seq<int>, after: seq<int>)
    requires dir != 0
    requires forall i :: 0 <= i < |run| ==> run[i] == 0 || run[i] == dir
    requires forall i :: 0 <= i < |after| ==> after[i] == 0 || after[i] == -dir
    ensures Clicks(dir, run + [-dir] + after) == 1
  {
    assert run + [-dir] + after == run + ([-dir] + after);
    ClicksFromPrefix(dir, run, [-dir] + after);
    HeldDirectionIsSilent(dir, dir, run);
    assert Remembered(dir, run) == dir by { RememberedHeld(dir, dir, run); }
    assert ([-dir] + after)[1..] == after;
    HeldDirectionIsSilent(-dir, -dir, after);
  }

  /** The direction remembered after a run of ticks. */
  function Remembered(lastDir: int, dirs: seq<int>): int
    decreases |dirs|
  {
    if dirs == [] then lastDir else Remembered(Remember(dirs[0], lastDir), dirs[1..])
  }

  lemma {:induction false} RememberedHeld(dir: int, lastDir: int, dirs: seq<int>)
    requires lastDir == dir
    requires forall i :: 0 <= i < |dirs| ==> dirs[i] == 0 || dirs[i] == dir
    ensures Remembered(lastDir, dirs) == dir
    decreases |dirs|
  {
    if dirs != [] {
      RememberedHeld(dir, Remember(dirs[0], lastDir), dirs[1..]);
    }
  }

  /** Clicks over two runs add up, the second starting from what the first
      left in memory. */
  lemma {:induction false} ClicksFromPrefix(lastDir: int, first: seq<int>, second: seq<int>)
    ensures Clicks(lastDir, first + second) == Clicks(lastDir, first) + Clicks(Remembered(lastDir, first), second)
    decreases |first|
  {
    if first == [] {
      assert first + second == second;
    } else {
      assert (first + second)[1..] == first[1..] + second;
      ClicksFromPrefix(Remember(first[0], lastDir), first[1..], second);
    }
  }
}

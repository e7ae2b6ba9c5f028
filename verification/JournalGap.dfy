/** The one interleaving that the heir's recheck does not refuse. */
module JournalGap {
  import opened Basics
  import opened Journals
  import opened JournalSteps
  import opened JournalRuns

  // Journal 1 is retired into 2 while, in between its check and its commit, 2 is created and retired into 3.
  const FIRST: seq<Action> := [
    OpenJournal(1), Stage(1, 10, 7, 100, 1), Reserve(1, 10, 100, 0), BeginRetire(1, 2),
    OpenJournal(2), BeginRetire(2, 3), OpenJournal(3), LinkHeir(2, 3), CloseRetired(2, 3)]
  const SECOND: seq<Action> := [
    Stage(3, 11, 7, 101, 1), Reserve(3, 11, 101, 1), LinkHeir(1, 2), CloseRetired(1, 2)]

  const ROW_1 := Intent(7, 100, 1, Uncertain, Some(0))
  const ROW_3 := Intent(7, 101, 1, Prepared, None)
  const OLD := Journal(1, map[10 := ROW_1], 1, map[], None, None)
  const MIDDLE := Journal(2, map[], 0, map[], None, Some(3))
  const NEW := Journal(2, map[], 0, map[], Some(2), None)

  const HALFWAY := World(GitHub, map[1 := OLD, 2 := MIDDLE, 3 := NEW], {Call(1, 2, false)})

  ghost predicate Steps(w: World, acts: seq<Action>, ws: seq<World>) {
    && |ws| == |acts| + 1
    && ws[0] == w
    && forall i :: 0 <= i < |acts| ==> Next(ws[i], acts[i], ws[i + 1])
  }

  const W0 := World(GitHub, map[], {})
  const W1 := World(GitHub, map[1 := FRESH], {})
  const W2 := World(GitHub, map[1 := StagedIn(FRESH, 10, 7, 100, 1)], {})
  const W3 := World(GitHub, map[1 := OLD], {})
  const W4 := World(GitHub, map[1 := OLD], {Call(1, 2, false)})
  const W5 := World(GitHub, map[1 := OLD, 2 := FRESH], {Call(1, 2, false)})
  const W6 := World(GitHub, map[1 := OLD, 2 := FRESH], {Call(1, 2, false), Call(2, 3, false)})
  const W7 := World(GitHub, map[1 := OLD, 2 := FRESH, 3 := FRESH], {Call(1, 2, false), Call(2, 3, false)})
  const W8 := World(GitHub, map[1 := OLD, 2 := FRESH, 3 := NEW], {Call(1, 2, false), Call(2, 3, true)})

  lemma Consumed()
    ensures Next(W0, FIRST[0], W1) && Next(W1, FIRST[1], W2) && Next(W2, FIRST[2], W3) && Next(W3, FIRST[3], W4)
  {
    assert ChainFrom(W1.disk, [1], 1);
    assert Walks(W1.disk, 1, [1]) && NoneTaken(W1.disk, [1][1..], 10, 7);
    assert W2.disk[1].intents[10 := ROW_1] == map[10 := ROW_1];
  }

  lemma OpenedBetween()
    ensures Next(W4, FIRST[4], W5) && Next(W5, FIRST[5], W6) && Next(W6, FIRST[6], W7)
  {
  }

  lemma RetiredBetween()
    ensures Next(W7, FIRST[7], W8) && Next(W8, FIRST[8], HALFWAY)
  {
  }

  lemma FirstHalf() returns (ws: seq<World>)
    ensures Steps(W0, FIRST, ws) && ws[|FIRST|] == HALFWAY
  {
    Consumed();
    OpenedBetween();
    RetiredBetween();
    ws := [W0, W1, W2, W3, W4, W5, W6, W7, W8, HALFWAY];
  }

  const STAGED := StagedIn(NEW, 11, 7, 101, 1)
  const RESERVED := WithRow(STAGED, 11, ROW_3.(state := Uncertain, reservedAt := Some(1)))
  const CLAIMED := MIDDLE.(follows := Some(1))
  const AFTER_STAGE := World(GitHub, map[1 := OLD, 2 := MIDDLE, 3 := STAGED], {Call(1, 2, false)})
  const AFTER_RESERVE := World(GitHub, map[1 := OLD, 2 := MIDDLE, 3 := RESERVED], {Call(1, 2, false)})
  const AFTER_LINK := World(GitHub, map[1 := OLD, 2 := CLAIMED, 3 := RESERVED], {Call(1, 2, true)})
  const AFTER_CLOSE := World(GitHub, map[1 := ClosedFor(OLD, 2), 2 := CLAIMED, 3 := RESERVED], {})

  lemma AdmittedBehindMiddle()
    ensures Next(HALFWAY, SECOND[0], AFTER_STAGE)
  {
    var c := [3, 2];
    assert c[1..] == [2] && Linked(HALFWAY.disk, 3, 2) && IsChain(HALFWAY.disk, [2]);
    assert Walks(HALFWAY.disk, 3, c);
    assert NoneTaken(HALFWAY.disk, c[1..], 11, 7);
  }

  lemma LastSteps()
    ensures Next(AFTER_STAGE, SECOND[1], AFTER_RESERVE)
    ensures Next(AFTER_RESERVE, SECOND[2], AFTER_LINK)
    ensures Next(AFTER_LINK, SECOND[3], AFTER_CLOSE)
  {
  }

  lemma ChainAtLast()
    ensures HeldBy(AFTER_CLOSE.disk, 1, 1, 10) && HeldBy(AFTER_CLOSE.disk, 1, 3, 11)
  {
    var d := AFTER_CLOSE.disk;
    assert ChainFrom(d, [1], 1);
    var chain := [3, 2, 1];
    assert chain[1..] == [2, 1] && [2, 1][1..] == [1];
    assert Linked(d, 2, 1) && Linked(d, 3, 2);
    assert IsChain(d, [2, 1]);
    assert ChainFrom(d, chain, 3) && Last(chain) == 1;
  }

  lemma SecondHalf() returns (ws: seq<World>)
    ensures Steps(HALFWAY, SECOND, ws) && ws[|SECOND|] == AFTER_CLOSE
  {
    AdmittedBehindMiddle();
    LastSteps();
    ws := [HALFWAY, AFTER_STAGE, AFTER_RESERVE, AFTER_LINK, AFTER_CLOSE];
  }

  /** Two reservations of one task in one verified chain: reachable, because the last retirement
      claims an heir that has itself been retired. */
  lemma RecheckGap() returns (ws: seq<World>, acts: seq<Action>)
    ensures Run(ws, acts) && !ClearHeirs(ws, acts)
    ensures var d := ws[|acts|].disk;
            && HeldBy(d, 1, 1, 10)
            && HeldBy(d, 1, 3, 11)
            && d[1].intents[10].state == d[3].intents[11].state == Uncertain
            && d[1].intents[10].task == d[3].intents[11].task
  {
    var first := FirstHalf();
    var second := SecondHalf();
    ChainAtLast();
    acts := FIRST + SECOND;
    ws := first + second[1..];
    forall i | 0 <= i < |acts| ensures Next(ws[i], acts[i], ws[i + 1]) {
      if i < |FIRST| {
        assert ws[i] == first[i] && ws[i + 1] == first[i + 1] && acts[i] == FIRST[i];
      } else {
        var k := i - |FIRST|;
        assert ws[i] == second[k] && ws[i + 1] == second[k + 1] && acts[i] == SECOND[k];
      }
    }
    if ClearHeirs(ws, acts) {
      OneReservationEver(ws, acts, |acts|, |acts|, 1, 1, 10, 3, 11);
      assert false;
    }
  }
}

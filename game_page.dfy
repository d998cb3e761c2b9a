/**
 * app/page.tsx: the game's top-level state (high score, gold, the score list and the power-up
 * inventory), the score list update after a game, and the handlers the child screens call.
 * The localStorage copies written beside each update are not part of this model; `date` stands
 * for the `toLocaleString("tr-TR")` text of the moment the game ended.
 */
module GamePage {
  import opened PowerUpShop

  datatype ScoreEntry = ScoreEntry(score: int, date: string)

  /** The score list keeps at most this many entries. */
  const MAX_SCORES := 50

  // ---------------------------------------------------------------- the score list

  predicate SortedDesc(s: seq<ScoreEntry>)
  {
    forall i, j :: 0 <= i < j < |s| ==> s[i].score >= s[j].score
  }

  /** Where a new entry goes in a list sorted by descending score: after every entry scoring at
      least as much. */
  function InsertionPoint(s: seq<ScoreEntry>, e: ScoreEntry): (k: nat)
    ensures k <= |s|
  {
    if s == [] || s[0].score < e.score then 0 else 1 + InsertionPoint(s[1..], e)
  }

  function Insert(s: seq<ScoreEntry>, e: ScoreEntry): seq<ScoreEntry>
  {
    var k := InsertionPoint(s, e);
    s[..k] + [e] + s[k..]
  }

  /** `s.sort((a, b) => b.score - a.score)`: a stable sort, each entry inserted after the equal
      scores that come before it in `s`. */
  function SortDesc(s: seq<ScoreEntry>): seq<ScoreEntry>
  {
    if s == [] then [] else Insert(SortDesc(s[..|s| - 1]), s[|s| - 1])
  }

  /** `s.slice(0, n)` */
  function Take(s: seq<ScoreEntry>, n: nat): (r: seq<ScoreEntry>)
    ensures |r| == if |s| < n then |s| else n
    ensures r == s[..|r|]
  {
    if |s| <= n then s else s[..n]
  }

  /** The list `saveScore` stores: the old list plus the new entry, highest first, the first 50. */
  function UpdatedScores(scores: seq<ScoreEntry>, e: ScoreEntry): seq<ScoreEntry>
  {
    Take(SortDesc(scores + [e]), MAX_SCORES)
  }

  /** Everything before the insertion point scores at least `e`; in a sorted list everything from
      it on scores less. */
  lemma {:induction false} InsertionPointSplits(s: seq<ScoreEntry>, e: ScoreEntry)
    requires SortedDesc(s)
    ensures forall i :: 0 <= i < InsertionPoint(s, e) ==> s[i].score >= e.score
    ensures forall i :: InsertionPoint(s, e) <= i < |s| ==> s[i].score < e.score
  {
    if s != [] && s[0].score >= e.score {
      InsertionPointSplits(s[1..], e);
      forall i | 1 <= i < InsertionPoint(s, e) ensures s[i].score >= e.score {
        assert s[i] == s[1..][i - 1];
      }
      forall i | InsertionPoint(s, e) <= i < |s| ensures s[i].score < e.score {
        assert s[i] == s[1..][i - 1];
      }
    }
  }

  /** Inserting into a sorted list keeps it sorted and adds exactly that entry. */
  lemma InsertSorted(s: seq<ScoreEntry>, e: ScoreEntry)
    requires SortedDesc(s)
    ensures SortedDesc(Insert(s, e))
    ensures multiset(Insert(s, e)) == multiset(s) + multiset{e}
  {
    InsertKeepsOrder(s, e);
    InsertAddsEntry(s, e);
  }

  lemma InsertKeepsOrder(s: seq<ScoreEntry>, e: ScoreEntry)
    requires SortedDesc(s)
    ensures SortedDesc(Insert(s, e))
  {
    var k := InsertionPoint(s, e);
    InsertionPointSplits(s, e);
    var r := Insert(s, e);
    forall i, j | 0 <= i < j < |r| ensures r[i].score >= r[j].score {
      InsertedAt(s, e, k, i);
      InsertedAt(s, e, k, j);
    }
  }

  lemma InsertAddsEntry(s: seq<ScoreEntry>, e: ScoreEntry)
    ensures multiset(Insert(s, e)) == multiset(s) + multiset{e}
  {
    var k := InsertionPoint(s, e);
    assert s == s[..k] + s[k..];
  }

  /** The entries of `Insert(s, e)` by position. */
  lemma InsertedAt(s: seq<ScoreEntry>, e: ScoreEntry, k: nat, i: nat)
    requires k == InsertionPoint(s, e) && i <= |s|
    ensures Insert(s, e)[i] == if i < k then s[i] else if i == k then e else s[i - 1]
  {
  }

  /** The sort orders by descending score and neither loses nor adds an entry. */
  lemma {:induction false} SortDescCorrect(s: seq<ScoreEntry>)
    ensures SortedDesc(SortDesc(s))
    ensures multiset(SortDesc(s)) == multiset(s)
  {
    if s != [] {
      var init := s[..|s| - 1];
      SortDescCorrect(init);
      InsertSorted(SortDesc(init), s[|s| - 1]);
      assert s == init + [s[|s| - 1]];
    }
  }

  /** A list that is already in order is left as it is: the sort is stable. */
  lemma {:induction false} SortDescSorted(s: seq<ScoreEntry>)
    requires SortedDesc(s)
    ensures SortDesc(s) == s
  {
    if s != [] {
      var init := s[..|s| - 1];
      var e := s[|s| - 1];
      assert SortedDesc(init);
      SortDescSorted(init);
      InsertAtEnd(init, e);
      assert s == init + [e];
    }
  }

  /** An entry scoring no more than any entry of the list goes last. */
  lemma {:induction false} InsertAtEnd(s: seq<ScoreEntry>, e: ScoreEntry)
    requires forall i :: 0 <= i < |s| ==> s[i].score >= e.score
    ensures Insert(s, e) == s + [e]
  {
    EndPoint(s, e);
    assert s[..|s|] == s && s[|s|..] == [];
  }

  lemma {:induction false} EndPoint(s: seq<ScoreEntry>, e: ScoreEntry)
    requires forall i :: 0 <= i < |s| ==> s[i].score >= e.score
    ensures InsertionPoint(s, e) == |s|
  {
    if s != [] {
      assert forall i :: 0 <= i < |s[1..]| ==> s[1..][i] == s[i + 1];
      EndPoint(s[1..], e);
    }
  }

  /** On a sorted list, `saveScore` places the new entry after all entries scoring at least as
      much and before the others, keeps the list sorted and drops whatever falls past 50. */
  lemma SaveIntoSorted(scores: seq<ScoreEntry>, e: ScoreEntry)
    requires SortedDesc(scores)
    ensures var k := InsertionPoint(scores, e);
      && UpdatedScores(scores, e) == Take(scores[..k] + [e] + scores[k..], MAX_SCORES)
      && (forall i :: 0 <= i < k ==> scores[i].score >= e.score)
      && (forall i :: k <= i < |scores| ==> scores[i].score < e.score)
    ensures SortedDesc(UpdatedScores(scores, e))
    ensures |UpdatedScores(scores, e)| == if |scores| < MAX_SCORES then |scores| + 1 else MAX_SCORES
  {
    var init := scores + [e];
    assert init[..|init| - 1] == scores;
    SortDescSorted(scores);
    InsertionPointSplits(scores, e);
    InsertSorted(scores, e);
  }

  // ---------------------------------------------------------------- the page

  datatype PageState = PageState(highScore: int, gold: int, scores: seq<ScoreEntry>, powerUps: Inventory)

  class BlockBlastGame {
    var highScore: int
    var gold: int
    var scores: seq<ScoreEntry>
    var powerUps: Inventory

    function State(): PageState
      reads this
    {
      PageState(highScore, gold, scores, powerUps)
    }

    /** The state before anything is read back from storage. */
    constructor ()
      ensures State() == PageState(0, 0, [], NO_POWER_UPS)
    {
      highScore := 0;
      gold := 0;
      scores := [];
      powerUps := NO_POWER_UPS;
    }

    /** `saveScore(score)`, the game board's `onGameOver`. */
    method SaveScore(score: int, date: string)
      modifies this
      ensures State() == old(State()).(
        scores := UpdatedScores(old(scores), ScoreEntry(score, date)),
        highScore := if score > old(highScore) then score else old(highScore))
    {
      scores := UpdatedScores(scores, ScoreEntry(score, date));
      if score > highScore {
        highScore := score;
      }
    }

    /** `updateGold(amount)`: a signed change. */
    method UpdateGold(amount: int)
      modifies this
      ensures State() == old(State()).(gold := old(gold) + amount)
    {
      gold := gold + amount;
    }

    /** `updatePowerUps(newPowerUps)`: the whole inventory is replaced. */
    method UpdatePowerUps(newPowerUps: Inventory)
      modifies this
      ensures State() == old(State()).(powerUps := newPowerUps)
    {
      powerUps := newPowerUps;
    }

    /** A buy button on the power-ups screen, wired to `updateGold(-cost)` and `updatePowerUps`. */
    method Buy(kind: PowerUpKind, confirmed: bool) returns (outcome: Purchase)
      modifies this
      ensures outcome == HandleBuy(old(gold), old(powerUps), kind, confirmed)
      ensures outcome.Bought? ==> State() == old(State()).(gold := old(gold) - Price(kind), powerUps := Adjust(old(powerUps), kind, 1))
      ensures !outcome.Bought? ==> State() == old(State())
    {
      outcome := HandleBuy(gold, powerUps, kind, confirmed);
      if outcome.Bought? {
        UpdateGold(-(outcome.cost as int));
        UpdatePowerUps(outcome.powerUps);
      }
    }
  }
}

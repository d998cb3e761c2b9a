/**
 * components/game/redeem-code.tsx: redeeming a reward code. The typed code is trimmed and
 * uppercased, checked against the codes already used on this device, looked up among the codes
 * fetched from the server, checked against its per-device usage limit, and then granted.
 *
 * `handleRedeem` awaits the fetch, so it is split in two: `Submit` runs the checks before the
 * request and `Receive` runs the rest once the response (or the exception) is in. The
 * localStorage counters `blockblast-code-usage-<CODE>` are the map `usage`; the alerts are
 * returned.
 */
module RedeemCode {
  import opened Common
  import opened JsString
  import opened PowerUpShop

  /** A row of `/api/admin/codes`. */
  datatype RewardCode = RewardCode(
    id: string,
    code: string,
    gold: int,
    miniBomb: int,
    standardBomb: int,
    eraser: int,
    boardRefresh: int,
    usageLimit: int,
    usedCount: int,
    active: bool)

  /** What `onRedeem` receives: the gold and four power-up counts of the code. */
  datatype Grant = Grant(gold: int, miniBomb: int, standardBomb: int, eraser: int, boardRefresh: int)

  /** A line of the success dialog: one power-up kind and how many of it the code gives. */
  datatype Earned = Earned(kind: PowerUpKind, count: int)

  /** The success dialog's content (`reward`). */
  datatype Reward = Reward(gold: int, earned: seq<Earned>)

  datatype Alert = EnterCode | InvalidCode

  /** What the fetch gives back: a response that is not ok, the parsed list, or an exception. */
  datatype CodesResponse = NotOk | Codes(codes: seq<RewardCode>) | Threw

  /** A request in flight: the normalised code and the used-code list as the handler saw them. */
  datatype Pending = Pending(input: string, usedCodes: seq<string>)

  /** `code.trim().toUpperCase()` */
  function Normalize(code: string): string
  {
    ToUpper(Trim(code))
  }

  /** `codes.find((c) => c.code === input && c.active)` */
  function FindCode(codes: seq<RewardCode>, input: string): Option<RewardCode>
  {
    if codes == [] then None
    else if codes[0].code == input && codes[0].active then Some(codes[0])
    else FindCode(codes[1..], input)
  }

  predicate Matches(c: RewardCode, input: string)
  {
    c.code == input && c.active
  }

  /** `find` gives the first active code with exactly the typed text, and nothing when there is
      none. */
  lemma {:induction false} FindCodeFirst(codes: seq<RewardCode>, input: string)
    ensures FindCode(codes, input).None? <==> forall i :: 0 <= i < |codes| ==> !Matches(codes[i], input)
    ensures FindCode(codes, input).Some? ==>
      exists i :: 0 <= i < |codes| && codes[i] == FindCode(codes, input).value && Matches(codes[i], input)
        && forall j :: 0 <= j < i ==> !Matches(codes[j], input)
  {
    if codes != [] && !Matches(codes[0], input) {
      FindCodeFirst(codes[1..], input);
      if FindCode(codes, input).Some? {
        var i :| 0 <= i < |codes[1..]| && codes[1..][i] == FindCode(codes, input).value && Matches(codes[1..][i], input)
          && forall j :: 0 <= j < i ==> !Matches(codes[1..][j], input);
        assert codes[i + 1] == codes[1..][i];
        forall j | 0 <= j < i + 1 ensures !Matches(codes[j], input) {
          if j > 0 {
            assert codes[j] == codes[1..][j - 1];
          }
        }
      }
    } else if codes != [] {
      assert codes[0] == FindCode(codes, input).value;
    }
  }

  /** The success dialog lists the power-ups the code gives a positive count of, in the order
      mini bomb, standard bomb, eraser, board refresh. */
  function EarnedList(c: RewardCode): seq<Earned>
  {
    (if c.miniBomb > 0 then [Earned(MiniBomb, c.miniBomb)] else [])
    + (if c.standardBomb > 0 then [Earned(StandardBomb, c.standardBomb)] else [])
    + (if c.eraser > 0 then [Earned(Eraser, c.eraser)] else [])
    + (if c.boardRefresh > 0 then [Earned(BoardRefresh, c.boardRefresh)] else [])
  }

  /** A kind appears in the list, with the code's count, exactly when that count is positive. */
  lemma EarnedListExact(c: RewardCode, kind: PowerUpKind, n: int)
    requires kind in {MiniBomb, StandardBomb, Eraser, BoardRefresh}
    ensures Earned(kind, n) in EarnedList(c) <==> n == CodeCount(c, kind) && n > 0
    ensures forall e :: e in EarnedList(c) ==> e.count > 0
  {
  }

  function CodeCount(c: RewardCode, kind: PowerUpKind): int
  {
    match kind
    case MiniBomb => c.miniBomb
    case StandardBomb => c.standardBomb
    case Eraser => c.eraser
    case BoardRefresh => c.boardRefresh
    case _ => 0
  }

  /** `Number.parseInt(localStorage.getItem(key) || "0")` for a counter this module wrote. */
  function UsageOf(usage: map<string, int>, input: string): int
  {
    if input in usage then usage[input] else 0
  }

  /** The outcome that decides a response: the code to grant, if any. */
  function Accepted(p: Pending, usage: map<string, int>, response: CodesResponse): (r: Option<RewardCode>)
    ensures r.Some? <==> response.Codes? && FindCode(response.codes, p.input).Some?
                         && UsageOf(usage, p.input) < FindCode(response.codes, p.input).value.usageLimit
    ensures r.Some? ==> Matches(r.value, p.input) && r.value in response.codes
  {
    if !response.Codes? then None
    else
      var found := FindCode(response.codes, p.input);
      FindCodeFirst(response.codes, p.input);
      if found.None? then None
      else if UsageOf(usage, p.input) >= found.value.usageLimit then None
      else found
  }

  datatype RedeemState = RedeemState(
    code: string,
    usedCodes: seq<string>,
    usage: map<string, int>,
    reward: Option<Reward>,
    showSuccess: bool,
    loading: bool)

  class Redeemer {
    var code: string
    var usedCodes: seq<string>
    var usage: map<string, int>
    var reward: Option<Reward>
    var showSuccess: bool
    var loading: bool

    function State(): RedeemState
      reads this
    {
      RedeemState(code, usedCodes, usage, reward, showSuccess, loading)
    }

    /** Mounting: the used codes come from `blockblast-used-codes` when saved, the counters from
        their own keys. */
    constructor (savedUsed: Option<seq<string>>, savedUsage: map<string, int>)
      ensures State() == RedeemState("", savedUsed.GetOr([]), savedUsage, None, false, false)
    {
      code := "";
      usedCodes := savedUsed.GetOr([]);
      usage := savedUsage;
      reward := None;
      showSuccess := false;
      loading := false;
    }

    /** The input's `onChange`: the text is kept uppercased. */
    method SetCode(value: string)
      modifies this
      ensures State() == old(State()).(code := ToUpper(value))
    {
      code := ToUpper(value);
    }

    /** The first half of `handleRedeem`, up to the fetch. The button is disabled while loading. A
        blank code or one already used here is refused with no request. */
    method Submit() returns (alert: Option<Alert>, request: Option<Pending>)
      requires !loading
      modifies this
      ensures var input := Normalize(old(code));
        && (input == [] ==> alert == Some(EnterCode) && request == None && State() == old(State()))
        && (input != [] && input in old(usedCodes) ==>
              alert == Some(InvalidCode) && request == None && State() == old(State()))
        && (input != [] && input !in old(usedCodes) ==>
              alert == None && request == Some(Pending(input, old(usedCodes)))
              && State() == old(State()).(loading := true))
    {
      var input := Normalize(code);
      if input == [] {
        return Some(EnterCode), None;
      }
      if input in usedCodes {
        return Some(InvalidCode), None;
      }
      loading := true;
      return None, Some(Pending(input, usedCodes));
    }

    /** The second half of `handleRedeem`. An accepted code bumps its counter by one, is appended to
        the used-code list the handler started from, opens the success dialog, is handed to
        `onRedeem` and clears the input; anything else is the "invalid code" alert. Loading ends
        either way. */
    method Receive(p: Pending, response: CodesResponse) returns (alert: Option<Alert>, grant: Option<Grant>)
      modifies this
      ensures var accepted := Accepted(p, old(usage), response);
        && (accepted.None? ==> alert == Some(InvalidCode) && grant == None && State() == old(State()).(loading := false))
        && (accepted.Some? ==>
              var c := accepted.value;
              && alert == None
              && grant == Some(Grant(c.gold, c.miniBomb, c.standardBomb, c.eraser, c.boardRefresh))
              && State() == RedeemState("", p.usedCodes + [p.input],
                                        old(usage)[p.input := UsageOf(old(usage), p.input) + 1],
                                        Some(Reward(c.gold, EarnedList(c))), true, false))
    {
      var accepted := Accepted(p, usage, response);
      if accepted.None? {
        loading := false;
        return Some(InvalidCode), None;
      }
      var c := accepted.value;
      Record(p, UsageOf(usage, p.input) + 1);
      ShowReward(Reward(c.gold, EarnedList(c)));
      code := "";
      loading := false;
      return None, Some(Grant(c.gold, c.miniBomb, c.standardBomb, c.eraser, c.boardRefresh));
    }

    /** Writes the counter and the used-code list. */
    method Record(p: Pending, count: int)
      modifies this
      ensures State() == old(State()).(usage := old(usage)[p.input := count], usedCodes := p.usedCodes + [p.input])
    {
      usage := usage[p.input := count];
      usedCodes := p.usedCodes + [p.input];
    }

    method ShowReward(r: Reward)
      modifies this
      ensures State() == old(State()).(reward := Some(r), showSuccess := true)
    {
      reward := Some(r);
      showSuccess := true;
    }

    /** `closeSuccess` */
    method CloseSuccess()
      modifies this
      ensures State() == old(State()).(showSuccess := false, reward := None)
    {
      showSuccess := false;
      reward := None;
    }
  }
}

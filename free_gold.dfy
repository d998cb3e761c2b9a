/**
 * components/game/free-gold.tsx: links that pay gold once a day. Clicking an unclaimed link opens
 * it and starts a 10-second countdown; when the countdown reaches 0 the link's reward is paid and
 * the link is recorded as claimed. The claims are kept for the day they were reset on.
 *
 * The localStorage entries `blockblast-claimed-links` and `blockblast-claimed-date` are the fields
 * `storedClaims` and `storedDate`; `today` stands for `new Date().toDateString()`. Each firing of
 * the one-second timer is a `Tick`; the gold handed to `onGoldEarn` is returned.
 */
module FreeGold {
  import opened Common

  /** A row of `/api/admin/links`. */
  datatype RewardLink = RewardLink(id: string, title: string, url: string, goldReward: int, active: bool)

  /** Seconds to wait after opening a link. */
  const COUNTDOWN := 10

  /** `data.filter((l) => l.active)` */
  function ActiveOnly(links: seq<RewardLink>): (r: seq<RewardLink>)
    ensures forall l :: l in r <==> l in links && l.active
    ensures |r| <= |links|
  {
    if links == [] then []
    else (if links[0].active then [links[0]] else []) + ActiveOnly(links[1..])
  }

  /** `links.find((l) => l.id === id)` */
  function FindLink(links: seq<RewardLink>, id: string): (r: Option<RewardLink>)
    ensures r.Some? ==> r.value in links && r.value.id == id
    ensures r.None? ==> forall l :: l in links ==> l.id != id
  {
    if links == [] then None
    else if links[0].id == id then Some(links[0])
    else FindLink(links[1..], id)
  }

  /** `activeLinks`: the links not yet claimed. */
  function Unclaimed(links: seq<RewardLink>, claimed: seq<string>): seq<RewardLink>
  {
    if links == [] then []
    else (if links[0].id !in claimed then [links[0]] else []) + Unclaimed(links[1..], claimed)
  }

  /** `claimedCount`: how many links are claimed. */
  function ClaimedCount(links: seq<RewardLink>, claimed: seq<string>): nat
  {
    if links == [] then 0
    else (if links[0].id in claimed then 1 else 0) + ClaimedCount(links[1..], claimed)
  }

  /** The unclaimed links and the claimed ones split the list: every link is counted once. */
  lemma {:induction false} UnclaimedPartition(links: seq<RewardLink>, claimed: seq<string>)
    ensures |Unclaimed(links, claimed)| + ClaimedCount(links, claimed) == |links|
    ensures forall l :: l in Unclaimed(links, claimed) <==> l in links && l.id !in claimed
  {
    if links != [] {
      UnclaimedPartition(links[1..], claimed);
      assert links == [links[0]] + links[1..];
    }
  }

  datatype FreeGoldState = FreeGoldState(
    links: seq<RewardLink>,
    loading: bool,
    claimedLinks: seq<string>,
    pendingLink: Option<string>,
    countdown: int,
    storedClaims: Option<seq<string>>,
    storedDate: Option<string>)

  /** A pending link is never one already claimed, and the countdown is never negative. */
  predicate Consistent(s: FreeGoldState)
  {
    (s.pendingLink.Some? ==> s.pendingLink.value !in s.claimedLinks) && s.countdown >= 0
  }

  class FreeGoldScreen {
    var links: seq<RewardLink>
    var loading: bool
    var claimedLinks: seq<string>
    var pendingLink: Option<string>
    var countdown: int
    var storedClaims: Option<seq<string>>
    var storedDate: Option<string>

    function State(): FreeGoldState
      reads this
    {
      FreeGoldState(links, loading, claimedLinks, pendingLink, countdown, storedClaims, storedDate)
    }

    ghost predicate Valid()
      reads this
    {
      Consistent(State())
    }

    /** The first render, before the mount effect, over what localStorage holds. */
    constructor (claims: Option<seq<string>>, date: Option<string>)
      ensures Valid()
      ensures State() == FreeGoldState([], true, [], None, 0, claims, date)
    {
      links := [];
      loading := true;
      claimedLinks := [];
      pendingLink := None;
      countdown := 0;
      storedClaims := claims;
      storedDate := date;
    }

    /** `loadClaimedLinks()`: saved claims from another day are reset to none, and only then is the
        date written; claims from today are taken as they are. Nothing saved, nothing done. */
    method LoadClaimedLinks(today: string)
      requires Valid() && pendingLink == None
      modifies this
      ensures Valid()
      ensures old(storedClaims).None? ==> State() == old(State())
      ensures old(storedClaims).Some? && old(storedDate) != Some(today) ==>
        State() == old(State()).(claimedLinks := [], storedClaims := Some([]), storedDate := Some(today))
      ensures old(storedClaims).Some? && old(storedDate) == Some(today) ==>
        State() == old(State()).(claimedLinks := old(storedClaims).value)
    {
      if storedClaims.None? {
        return;
      }
      if storedDate != Some(today) {
        claimedLinks := [];
        storedClaims := Some([]);
        storedDate := Some(today);
      } else {
        claimedLinks := storedClaims.value;
      }
    }

    /** The end of `fetchLinks()`: an ok response keeps its active links; a failed one or an
        exception keeps none. Loading ends either way. */
    method LinksFetched(response: Option<seq<RewardLink>>)
      requires Valid()
      modifies this
      ensures Valid()
      ensures State() == old(State()).(
        links := if response.Some? then ActiveOnly(response.value) else old(links), loading := false)
    {
      if response.Some? {
        links := ActiveOnly(response.value);
      }
      loading := false;
    }

    /** `handleLinkClick(link)`: a claimed link does nothing; any other becomes the pending link and
        restarts the countdown at 10. */
    method LinkClick(id: string)
      requires Valid()
      modifies this
      ensures Valid()
      ensures id in old(claimedLinks) ==> State() == old(State())
      ensures id !in old(claimedLinks) ==> State() == old(State()).(pendingLink := Some(id), countdown := COUNTDOWN)
    {
      if id in claimedLinks {
        return;
      }
      pendingLink := Some(id);
      countdown := COUNTDOWN;
    }

    /** One firing of the countdown timer, followed by the effect it triggers: the countdown drops
        by one; when that reaches 0 with a link pending, the link's reward is paid once (if the link
        is still listed), the link is appended to the claims (the stored date is left as it is) and
        nothing is pending any more. A pending empty id is falsy: it is neither settled nor cleared.
        Without a running countdown there is no timer to fire. */
    method Tick() returns (earned: Option<int>)
      requires Valid()
      modifies this
      ensures Valid()
      ensures old(countdown) == 0 ==> State() == old(State()) && earned == None
      ensures old(countdown) > 1 ==> State() == old(State()).(countdown := old(countdown) - 1) && earned == None
      ensures old(countdown) == 1 && !Truthy(old(pendingLink)) ==> State() == old(State()).(countdown := 0) && earned == None
      ensures old(countdown) == 1 && Truthy(old(pendingLink)) ==>
        var id := old(pendingLink).value;
        var link := FindLink(old(links), id);
        && countdown == 0 && pendingLink == None
        && earned == (if link.Some? then Some(link.value.goldReward) else None)
        && (link.Some? ==> id !in old(claimedLinks) && claimedLinks == old(claimedLinks) + [id]
                           && storedClaims == Some(old(claimedLinks) + [id]))
        && (link.None? ==> claimedLinks == old(claimedLinks) && storedClaims == old(storedClaims))
        && links == old(links) && loading == old(loading) && storedDate == old(storedDate)
    {
      earned := None;
      if countdown == 0 {
        return;
      }
      countdown := countdown - 1;
      if countdown == 0 && Truthy(pendingLink) {
        earned := Settle(pendingLink.value);
      }
    }

    /** The effect with the countdown at 0 and `id` pending; an empty id is falsy and never settled. */
    method Settle(id: string) returns (earned: Option<int>)
      requires id != "" && Consistent(State().(pendingLink := Some(id)))
      modifies this
      ensures Valid()
      ensures var link := FindLink(old(links), id);
        && earned == (if link.Some? then Some(link.value.goldReward) else None)
        && State() == old(State()).(
             pendingLink := None,
             claimedLinks := if link.Some? then old(claimedLinks) + [id] else old(claimedLinks),
             storedClaims := if link.Some? then Some(old(claimedLinks) + [id]) else old(storedClaims))
    {
      var link := FindLink(links, id);
      earned := None;
      if link.Some? {
        earned := Some(link.value.goldReward);
        claimedLinks := claimedLinks + [id];
        storedClaims := Some(claimedLinks);
      }
      pendingLink := None;
    }
  }
}

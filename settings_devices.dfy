/**
 * pages/SettingsDevices.tsx: the list of the account's device sessions, with this device first,
 * and logging out one other device or all of them.
 *
 * Of a device record only the fields the logic reads are kept: its id, `active`, `me` (as
 * `Boolean(d.me)`) and `deviceType`. `fetchDevices` sorts the received array in place, which a
 * method over an `array` does here, and then partitions it. The requests are split at their
 * await; a successful logout starts a new fetch without awaiting it, so the request it issues is
 * returned.
 */
module SettingsDevices {
  import opened Common
  import opened JsString
  import opened Forms

  datatype Device = Device(deviceId: string, active: bool, me: bool, deviceType: Option<string>)

  const ERROR_FETCH := "Cihazlar alınamadı"
  const ERROR_LOGOUT := "Cihaz çıkışı yapılamadı"
  const ERROR_LOGOUT_ALL := "Diğer cihazlardan çıkılamadı"

  // ---------------------------------------------------------------- ordering

  /** The sort key: `(d.me ? 1 : 0)`, larger first. */
  function Rank(d: Device): int
  {
    if d.me then 1 else 0
  }

  /** Inserting `d` after the sorted entries `s`, moving it in front of every trailing entry of
      a lower rank, as a stable sort does. */
  function InsertByRank(s: seq<Device>, d: Device): seq<Device>
  {
    if s == [] || Rank(s[|s| - 1]) >= Rank(d) then s + [d]
    else InsertByRank(s[..|s| - 1], d) + [s[|s| - 1]]
  }

  /** `list.sort((a, b) => (b.me ? 1 : 0) - (a.me ? 1 : 0))`, stable as the language requires. */
  function SortByRank(s: seq<Device>): seq<Device>
  {
    if s == [] then [] else InsertByRank(SortByRank(s[..|s| - 1]), s[|s| - 1])
  }

  /** `list.filter((d) => d.me === me)` */
  function Only(s: seq<Device>, me: bool): (r: seq<Device>)
  {
    if s == [] then []
    else (if s[0].me == me then [s[0]] else []) + Only(s[1..], me)
  }

  /** `[...list.filter((d) => d.me), ...list.filter((d) => !d.me)]` */
  function MeFirst(s: seq<Device>): seq<Device>
  {
    Only(s, true) + Only(s, false)
  }

  lemma {:induction false} OnlyAppend(a: seq<Device>, b: seq<Device>, me: bool)
    ensures Only(a + b, me) == Only(a, me) + Only(b, me)
  {
    if a == [] {
      assert a + b == b;
    } else {
      var head := if a[0].me == me then [a[0]] else [];
      calc {
        Only(a + b, me);
        == { assert (a + b)[0] == a[0]; assert (a + b)[1..] == a[1..] + b; }
        head + Only(a[1..] + b, me);
        == { OnlyAppend(a[1..], b, me); }
        head + (Only(a[1..], me) + Only(b, me));
        ==
        (head + Only(a[1..], me)) + Only(b, me);
      }
    }
  }

  lemma OnlyOne(d: Device, me: bool)
    ensures Only([d], me) == if d.me == me then [d] else []
  {
    assert [d][1..] == [];
  }

  /** Filtering a list whose entries all pass keeps it whole; one whose entries all fail, none. */
  lemma {:induction false} OnlyAll(s: seq<Device>, me: bool)
    ensures (forall i :: 0 <= i < |s| ==> s[i].me == me) ==> Only(s, me) == s
    ensures (forall i :: 0 <= i < |s| ==> s[i].me != me) ==> Only(s, me) == []
  {
    if s != [] {
      OnlyAll(s[1..], me);
      assert s == [s[0]] + s[1..];
    }
  }

  lemma OnlyKeepsAll(s: seq<Device>, me: bool)
    requires forall i :: 0 <= i < |s| ==> s[i].me == me
    ensures Only(s, me) == s
  {
    OnlyAll(s, me);
  }

  lemma OnlyDropsAll(s: seq<Device>, me: bool)
    requires forall i :: 0 <= i < |s| ==> s[i].me != me
    ensures Only(s, me) == []
  {
    OnlyAll(s, me);
  }

  /** A filter keeps exactly the entries of its group. */
  lemma {:induction false} OnlyMembers(s: seq<Device>, me: bool)
    ensures forall i :: 0 <= i < |Only(s, me)| ==> Only(s, me)[i].me == me
    ensures forall d :: d in Only(s, me) <==> d in s && d.me == me
  {
    if s != [] {
      OnlyMembers(s[1..], me);
      assert s == [s[0]] + s[1..];
    }
  }

  /** The two filters together keep every entry once. */
  lemma {:induction false} OnlySplit(s: seq<Device>)
    ensures multiset(Only(s, true)) + multiset(Only(s, false)) == multiset(s)
  {
    if s != [] {
      OnlySplit(s[1..]);
      assert s == [s[0]] + s[1..];
    }
  }

  /** Inserting into "devices of this one, then the others" by rank puts the entry at the end of
      its own group. */
  lemma {:induction false} InsertIntoGroups(mine: seq<Device>, others: seq<Device>, d: Device)
    requires forall i :: 0 <= i < |mine| ==> mine[i].me
    requires forall i :: 0 <= i < |others| ==> !others[i].me
    ensures InsertByRank(mine + others, d) == if d.me then mine + [d] + others else mine + others + [d]
    decreases |others|
  {
    var s := mine + others;
    if d.me && others != [] {
      var last := others[|others| - 1];
      var init := others[..|others| - 1];
      assert s[..|s| - 1] == mine + init;
      assert s[|s| - 1] == last;
      InsertIntoGroups(mine, init, d);
      assert others == init + [last];
    } else if d.me && mine != [] {
      assert s == mine;
    }
  }

  /** The stable sort by `me` is exactly the devices of this one followed by the others, each
      group in the received order. */
  lemma {:induction false} SortIsPartition(s: seq<Device>)
    ensures SortByRank(s) == Only(s, true) + Only(s, false)
  {
    if s != [] {
      var init := s[..|s| - 1];
      assert s == init + [s[|s| - 1]];
      SortIsPartition(init);
      SortStep(init, s[|s| - 1]);
    }
  }

  /** One more entry keeps the sort equal to the two groups. */
  lemma SortStep(init: seq<Device>, d: Device)
    requires SortByRank(init) == Only(init, true) + Only(init, false)
    ensures SortByRank(init + [d]) == Only(init + [d], true) + Only(init + [d], false)
  {
    var s := init + [d];
    assert s[..|s| - 1] == init && s[|s| - 1] == d;
    var mine, others := Only(init, true), Only(init, false);
    assert SortByRank(s) == InsertByRank(mine + others, d);
    OnlyGroupsAppend(init, d);
    InsertIntoOnly(init, d);
    var a, b := Only(s, true), Only(s, false);
    if d.me {
      assert a == mine + [d] && b == others;
      assert SortByRank(s) == a + b;
    } else {
      assert a == mine && b == others + [d];
      assert SortByRank(s) == mine + others + [d];
      assert mine + others + [d] == a + b;
    }
  }

  /** Inserting into the two groups of a list puts the entry at the end of its own group. */
  lemma InsertIntoOnly(s: seq<Device>, d: Device)
    ensures d.me ==> InsertByRank(Only(s, true) + Only(s, false), d) == Only(s, true) + [d] + Only(s, false)
    ensures !d.me ==> InsertByRank(Only(s, true) + Only(s, false), d) == Only(s, true) + Only(s, false) + [d]
  {
    OnlyMembers(s, true);
    OnlyMembers(s, false);
    InsertIntoGroups(Only(s, true), Only(s, false), d);
  }

  /** The two groups of a list with one more entry. */
  lemma OnlyGroupsAppend(init: seq<Device>, d: Device)
    ensures Only(init + [d], true) == Only(init, true) + (if d.me then [d] else [])
    ensures Only(init + [d], false) == Only(init, false) + (if d.me then [] else [d])
  {
    OnlyAppend(init, [d], true);
    OnlyAppend(init, [d], false);
    OnlyOne(d, true);
    OnlyOne(d, false);
    assert Only(init, true) + [] == Only(init, true);
    assert Only(init, false) + [] == Only(init, false);
  }

  /** Partitioning an already partitioned list gives it back. */
  lemma MeFirstPartitioned(s: seq<Device>)
    ensures MeFirst(Only(s, true) + Only(s, false)) == Only(s, true) + Only(s, false)
  {
    var a, b := Only(s, true), Only(s, false);
    OnlyMembers(s, true);
    OnlyMembers(s, false);
    calc {
      Only(a + b, true);
      == { OnlyAppend(a, b, true); }
      Only(a, true) + Only(b, true);
      == { OnlyKeepsAll(a, true); OnlyDropsAll(b, true); }
      a;
    }
    calc {
      Only(a + b, false);
      == { OnlyAppend(a, b, false); }
      Only(a, false) + Only(b, false);
      == { OnlyDropsAll(a, false); OnlyKeepsAll(b, false); }
      b;
    }
  }

  /** What `fetchDevices` stores: a rearrangement of the received list with this device's
      entries first and each group in the received order; the second partition after the sort
      changes nothing. */
  lemma FetchedOrder(s: seq<Device>)
    ensures MeFirst(SortByRank(s)) == Only(s, true) + Only(s, false)
    ensures multiset(MeFirst(SortByRank(s))) == multiset(s)
    ensures var r := MeFirst(SortByRank(s));
      forall i, j :: 0 <= i < j < |r| && r[j].me ==> r[i].me
  {
    var a, b := Only(s, true), Only(s, false);
    SortIsPartition(s);
    MeFirstPartitioned(s);
    OnlySplit(s);
    OnlyMembers(s, true);
    OnlyMembers(s, false);
    var r := a + b;
    forall i, j | 0 <= i < j < |r| && r[j].me ensures r[i].me {
    }
  }

  /** The library sort of line 39, whose algorithm the page does not fix: the array ends up
      holding the stable sort of what it held. */
  method SortByMe(a: array<Device>)
    modifies a
    ensures a[..] == SortByRank(old(a[..]))
  {
    var sorted := SortByRank(a[..]);
    assert |sorted| == a.Length by {
      SortIsPartition(a[..]);
      OnlySplit(a[..]);
      assert |multiset(sorted)| == |multiset(a[..])|;
    }
    var i := 0;
    while i < a.Length
      invariant 0 <= i <= a.Length
      invariant forall k :: 0 <= k < i ==> a[k] == sorted[k]
    {
      a[i] := sorted[i];
      i := i + 1;
    }
    assert a[..] == sorted;
  }

  /** Lines 39-40 of `fetchDevices`: the received list sorted in place, then partitioned. */
  method Arrange(list: seq<Device>) returns (r: seq<Device>)
    ensures r == MeFirst(SortByRank(list))
    ensures r == Only(list, true) + Only(list, false)
  {
    var a := new Device[|list|](i requires 0 <= i < |list| => list[i]);
    assert a[..] == list;
    SortByMe(a);
    r := MeFirst(a[..]);
    FetchedOrder(list);
  }

  // ---------------------------------------------------------------- icons and buttons

  datatype Icon = Phone | TabletIcon | Monitor

  /** `deviceIcon(type)`: the upper-cased type picks the icon. */
  function DeviceIcon(kind: Option<string>): Icon
  {
    var t := ToUpper(if kind.Some? then kind.value else "");
    if t == "MOBILE" || t == "ANDROID" || t == "IPHONE" then Phone
    else if t == "TABLET" then TabletIcon
    else Monitor
  }

  /** The icon does not depend on letter case. */
  lemma DeviceIconIgnoresCase(t: string)
    ensures DeviceIcon(Some(ToLower(t))) == DeviceIcon(Some(t))
    ensures DeviceIcon(Some(ToUpper(t))) == DeviceIcon(Some(t))
  {
    CaseFolds(t);
    assert ToUpper(ToUpper(t)) == ToUpper(t) by {
      assert forall i :: 0 <= i < |t| ==> ToUpper(ToUpper(t))[i] == ToUpper(t)[i];
    }
  }

  /** The per-device logout button is shown only for other devices. */
  predicate ShowsLogout(d: Device)
  {
    !d.me
  }

  /** "Log out of all other devices" is disabled while an action runs or with no devices. */
  predicate LogoutAllDisabled(actionLoading: bool, devices: seq<Device>)
  {
    actionLoading || |devices| == 0
  }

  /** In a fetched list the entries with a logout button come after all entries without one. */
  lemma LogoutButtonsLast(s: seq<Device>)
    ensures var r := MeFirst(SortByRank(s));
      forall i, j :: 0 <= i < j < |r| && ShowsLogout(r[i]) ==> ShowsLogout(r[j])
  {
    FetchedOrder(s);
  }

  // ---------------------------------------------------------------- the screen

  datatype DevicesState = DevicesState(devices: seq<Device>, loading: bool, error: string,
                                       actionLoading: bool, confirmId: Option<string>)

  /** A request the screen issues. */
  datatype Request = GetDevices | LogoutDevice(id: string) | LogoutAll

  class DevicesScreen {
    var devices: seq<Device>
    var loading: bool
    var error: string
    var actionLoading: bool
    var confirmId: Option<string>

    function State(): DevicesState
      reads this
    {
      DevicesState(devices, loading, error, actionLoading, confirmId)
    }

    constructor ()
      ensures State() == DevicesState([], false, "", false, None)
    {
      devices := [];
      loading := false;
      error := "";
      actionLoading := false;
      confirmId := None;
    }

    /** The first half of `fetchDevices`. */
    method Fetch() returns (request: Request)
      modifies this
      ensures request == GetDevices
      ensures State() == old(State()).(loading := true, error := "")
    {
      loading, error := true, "";
      return GetDevices;
    }

    /** The rest of `fetchDevices`: a successful response's list (none counts as empty) is sorted
        in place and partitioned, this device first; a refusal or a throw shows the error and
        keeps the old list. Loading ends. */
    method FetchDone(o: Outcome<seq<Device>>)
      modifies this
      ensures Succeeded(o) ==>
        var list := if o.res.data.Some? then o.res.data.value else [];
        && State() == old(State()).(devices := MeFirst(SortByRank(list)), loading := false)
        && devices == Only(list, true) + Only(list, false)
      ensures !Succeeded(o) ==> State() == old(State()).(error := ErrorText(o, ERROR_FETCH), loading := false)
    {
      if Succeeded(o) {
        devices := Arrange(if o.res.data.Some? then o.res.data.value else []);
      } else {
        error := ErrorText(o, ERROR_FETCH);
      }
      loading := false;
    }

    /** A device's logout button (shown only for other devices) opens the confirmation. */
    method AskLogout(d: Device)
      requires ShowsLogout(d) && !actionLoading
      modifies this
      ensures State() == old(State()).(confirmId := Some(d.deviceId))
    {
      confirmId := Some(d.deviceId);
    }

    /** The confirmation's cancel button. */
    method Cancel()
      modifies this
      ensures State() == old(State()).(confirmId := None)
    {
      confirmId := None;
    }

    /** The confirmation's logout button: the first half of `logoutDevice`. The dialog is shown
        only while `confirmId` is truthy, so an empty id has no button to press. */
    method Logout() returns (request: Request)
      requires Truthy(confirmId) && !actionLoading
      modifies this
      ensures request == LogoutDevice(old(confirmId).value)
      ensures State() == old(State()).(actionLoading := true, error := "")
    {
      actionLoading, error := true, "";
      return LogoutDevice(confirmId.value);
    }

    /** The first half of `logoutAll`, whose button is enabled only when not busy and with
        devices listed. */
    method LogoutEverywhere() returns (request: Request)
      requires !LogoutAllDisabled(actionLoading, devices)
      modifies this
      ensures request == LogoutAll
      ensures State() == old(State()).(actionLoading := true, error := "")
    {
      actionLoading, error := true, "";
      return LogoutAll;
    }

    /** The rest of either logout: success starts a new fetch (not awaited) and returns its
        request; a refusal or a throw shows the error and fetches nothing. The confirmation stays
        as it was. The action ends either way. */
    method LogoutDone(which: Request, o: Outcome<()>) returns (refetch: Option<Request>)
      requires which.LogoutDevice? || which.LogoutAll?
      modifies this
      ensures Succeeded(o) ==>
        refetch == Some(GetDevices)
        && State() == old(State()).(loading := true, error := "", actionLoading := false)
      ensures !Succeeded(o) ==>
        refetch.None?
        && State() == old(State()).(error := ErrorText(o, if which.LogoutAll? then ERROR_LOGOUT_ALL else ERROR_LOGOUT),
                                    actionLoading := false)
    {
      refetch := None;
      if Succeeded(o) {
        var r := Fetch();
        refetch := Some(r);
      } else {
        error := ErrorText(o, if which.LogoutAll? then ERROR_LOGOUT_ALL else ERROR_LOGOUT);
      }
      actionLoading := false;
    }
  }
}

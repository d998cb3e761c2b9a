/**
 * lib/utils.ts: masking an e-mail address for display, joining CSS class names, and choosing
 * which "last seen" phrase to show.
 *
 * `formatLastSeen` parses the date and reads the clock and the locale; here the parsed time (in
 * milliseconds, `None` when it is not a number), the current time, the two calendar-day
 * comparisons and the locale-formatted time and date texts are parameters, and the function is
 * the branch chain over them.
 */
module Utils {
  import opened Common
  import opened JsString

  // ---------------------------------------------------------------- maskEmail

  /** `maskEmail(email)`: the first and last character of the name around `***`, then `@` and the
      domain, where name and domain are the first two `@`-separated parts. */
  function MaskEmail(email: string): (r: string)
    ensures r == [] <==> email == []
  {
    if email == [] then []
    else
      var parts := Split(email, '@');
      var name := parts[0];
      if name == [] || |parts| < 2 || parts[1] == [] then email
      else [name[0]] + "***" + [name[|name| - 1]] + "@" + parts[1]
  }

  predicate NoAt(s: string)
  {
    forall i :: 0 <= i < |s| ==> s[i] != '@'
  }

  /** An address with a name and a domain is masked; whatever follows a second `@` is dropped.
      A one-character name shows that character on both sides. */
  lemma MaskEmailMasked(name: string, domain: string, rest: string)
    requires name != [] && NoAt(name)
    requires domain != [] && NoAt(domain)
    requires rest == [] || rest[0] == '@'
    ensures MaskEmail(name + "@" + domain + rest) == [name[0]] + "***" + [name[|name| - 1]] + "@" + domain
  {
    FirstTwoParts(name, domain, rest);
  }

  /** The first two `@`-separated parts of such an address are its name and its domain. */
  lemma FirstTwoParts(name: string, domain: string, rest: string)
    requires NoAt(name) && NoAt(domain)
    requires rest == [] || rest[0] == '@'
    ensures var parts := Split(name + "@" + domain + rest, '@');
      |parts| >= 2 && parts[0] == name && parts[1] == domain
  {
    var tail := "@" + domain + rest;
    assert name + "@" + domain + rest == name + tail;
    SplitAt(name, tail, '@');
    assert tail[1..] == domain + rest;
    SplitAt(domain, rest, '@');
  }

  /** Text without `@`, an address starting with `@` and one with nothing between its first and
      second `@` (or after its only one) are returned as they are. */
  lemma MaskEmailUnchanged(email: string, name: string, rest: string)
    requires name != [] && NoAt(name)
    requires rest == [] || rest[0] == '@'
    ensures NoAt(email) ==> MaskEmail(email) == email
    ensures email != [] && email[0] == '@' ==> MaskEmail(email) == email
    ensures MaskEmail(name + "@" + rest) == name + "@" + rest
  {
    if NoAt(email) {
      SplitWithoutSeparator(email, '@');
    }
    if email != [] && email[0] == '@' {
      LeadingAtUnchanged(email);
    }
    EmptyDomainUnchanged(name, rest);
  }

  lemma LeadingAtUnchanged(email: string)
    requires email != [] && email[0] == '@'
    ensures MaskEmail(email) == email
  {
    SplitAt([], email, '@');
    assert [] + email == email;
  }

  lemma EmptyDomainUnchanged(name: string, rest: string)
    requires name != [] && NoAt(name)
    requires rest == [] || rest[0] == '@'
    ensures MaskEmail(name + "@" + rest) == name + "@" + rest
  {
    var tail := "@" + rest;
    assert name + "@" + rest == name + tail;
    SplitAt(name, tail, '@');
    assert tail[1..] == rest;
    SplitAt([], rest, '@');
    assert [] + rest == rest;
  }

  // ---------------------------------------------------------------- cn

  /** An argument of `cn`: a string, a boolean (from `cond && 'class'`) or `undefined`. */
  datatype ClassValue = Str(s: string) | Flag(b: bool) | Undefined

  /** `Boolean(v)` */
  predicate Truthy(v: ClassValue)
  {
    match v
    case Str(s) => s != []
    case Flag(b) => b
    case Undefined => false
  }

  /** How `join` prints a kept argument. */
  function Text(v: ClassValue): string
  {
    match v
    case Str(s) => s
    case Flag(b) => if b then "true" else "false"
    case Undefined => "undefined"
  }

  /** `classes.filter(Boolean)`, as the texts `join` prints. */
  function Kept(classes: seq<ClassValue>): seq<string>
  {
    if classes == [] then []
    else (if Truthy(classes[0]) then [Text(classes[0])] else []) + Kept(classes[1..])
  }

  /** `cn(...classes)` */
  function Cn(classes: seq<ClassValue>): string
  {
    Join(Kept(classes), " ")
  }

  lemma {:induction false} KeptAppend(a: seq<ClassValue>, b: seq<ClassValue>)
    ensures Kept(a + b) == Kept(a) + Kept(b)
  {
    if a != [] {
      KeptAppend(a[1..], b);
      assert (a + b)[1..] == a[1..] + b;
    } else {
      assert a + b == b;
    }
  }

  /** A falsy argument contributes nothing, wherever it stands. */
  lemma CnSkipsFalsy(a: seq<ClassValue>, x: ClassValue, b: seq<ClassValue>)
    requires !Truthy(x)
    ensures Cn(a + [x] + b) == Cn(a + b)
  {
    assert [x][1..] == [];
    assert Kept([x]) == [];
    KeptAppend(a + [x], b);
    KeptAppend(a, [x]);
    KeptAppend(a, b);
    assert Kept(a + [x]) == Kept(a);
    assert Kept(a + [x] + b) == Kept(a + b);
  }

  /** Two argument lists that each keep something are joined with exactly one space between. */
  lemma CnAppend(a: seq<ClassValue>, b: seq<ClassValue>)
    requires Kept(a) != [] && Kept(b) != []
    ensures Cn(a + b) == Cn(a) + " " + Cn(b)
  {
    KeptAppend(a, b);
    JoinAppend(Kept(a), Kept(b), " ");
  }

  /** One truthy argument is printed as it is; only falsy arguments give the empty string. */
  lemma {:induction false} CnSingle(x: ClassValue, a: seq<ClassValue>)
    ensures Truthy(x) ==> Cn([x]) == Text(x)
    ensures (forall i :: 0 <= i < |a| ==> !Truthy(a[i])) ==> Cn(a) == []
  {
    assert [x][1..] == [];
    assert Kept([x][1..]) == [];
    if Truthy(x) {
      assert Kept([x]) == [Text(x)];
    }
    if forall i :: 0 <= i < |a| ==> !Truthy(a[i]) {
      NoneKept(a);
    }
  }

  lemma {:induction false} NoneKept(a: seq<ClassValue>)
    requires forall i :: 0 <= i < |a| ==> !Truthy(a[i])
    ensures Kept(a) == []
  {
    if a != [] {
      NoneKept(a[1..]);
    }
  }

  // ---------------------------------------------------------------- formatLastSeen

  /** Which phrase `formatLastSeen` returns. */
  datatype LastSeen = Blank | JustNow | MinutesAgo(minutes: nat) | Today | Yesterday | OnDate

  const MINUTE_MS := 60000
  const HOUR_MS := 3600000

  /** The branch chain of `formatLastSeen`: `time` is the parsed date's `getTime()`, `sameDay`
      and `yesterday` whether its `toDateString()` is today's and yesterday's. */
  function LastSeenBranch(dateStr: Option<string>, time: Option<int>, now: int, sameDay: bool, yesterday: bool): (r: LastSeen)
    ensures r == Blank <==> dateStr == None || dateStr == Some([]) || time == None
    ensures r != Blank ==>
      var diff := now - time.value;
      && (r == JustNow <==> diff < MINUTE_MS)
      && (r.MinutesAgo? <==> MINUTE_MS <= diff < HOUR_MS)
      && (r == Today <==> HOUR_MS <= diff && sameDay)
      && (r == Yesterday <==> HOUR_MS <= diff && !sameDay && yesterday)
      && (r.MinutesAgo? ==> 1 <= r.minutes <= 59 && r.minutes * MINUTE_MS <= diff < (r.minutes + 1) * MINUTE_MS)
  {
    if dateStr == None || dateStr == Some([]) then Blank
    else if time == None then Blank
    else
      var minutes := (now - time.value) / MINUTE_MS;   // Math.floor: the divisor is positive
      if minutes < 1 then JustNow
      else if minutes < 60 then MinutesAgo(minutes)
      else if sameDay then Today
      else if yesterday then Yesterday
      else OnDate
  }

  /** The text of each branch, around the locale-formatted time and date. */
  function LastSeenText(b: LastSeen, timePart: string, datePart: string): (r: string)
    ensures r == [] <==> b == Blank
  {
    match b
    case Blank => ""
    case JustNow => "Hozirgina ko'rildi"
    case MinutesAgo(m) => NatToString(m) + " daqiqa oldin"
    case Today => "Bugun " + timePart
    case Yesterday => "Kecha " + timePart
    case OnDate => datePart + " " + timePart
  }

  /** `formatLastSeen(dateStr)` */
  function FormatLastSeen(dateStr: Option<string>, time: Option<int>, now: int, sameDay: bool, yesterday: bool,
                          timePart: string, datePart: string): string
  {
    LastSeenText(LastSeenBranch(dateStr, time, now, sameDay, yesterday), timePart, datePart)
  }
}

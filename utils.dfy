/**
 * Display-name disambiguation (`getUniqueName`) and the vendor-to-accessory
 * arm-state mapping (`hapArmState`).
 */
module Utils {
  import opened Common
  import opened Vendor

  // ===== decimal digits =====

  predicate IsDigit(c: char) { '0' <= c <= '9' }

  predicate AllDigits(s: string) { forall i :: 0 <= i < |s| ==> IsDigit(s[i]) }

  function DigitChar(d: nat): (c: char)
    requires d < 10
    ensures IsDigit(c)
  {
    ('0' as int + d) as char
  }

  /** The number `parseInt` reads from a string of decimal digits (leading zeros allowed). */
  function DigitsValue(s: string): nat
    requires AllDigits(s)
  {
    if s == [] then 0 else 10 * DigitsValue(s[..|s| - 1]) + (s[|s| - 1] as int - '0' as int)
  }

  /** The decimal rendering of a number, as a template literal writes it. */
  function NatToString(n: nat): (r: string)
    ensures |r| >= 1 && AllDigits(r)
  {
    if n < 10 then [DigitChar(n)] else NatToString(n / 10) + [DigitChar(n % 10)]
  }

  lemma {:induction false} DigitsValueOfNatToString(n: nat)
    ensures DigitsValue(NatToString(n)) == n
  {
    var s := NatToString(n);
    if n >= 10 {
      assert s[..|s| - 1] == NatToString(n / 10);
      DigitsValueOfNatToString(n / 10);
    }
  }

  function Pow10(k: nat): (r: nat)
    ensures r >= 1
  {
    if k == 0 then 1 else 10 * Pow10(k - 1)
  }

  lemma {:induction false} Pow10Monotone(a: nat, b: nat)
    requires a <= b
    ensures Pow10(a) <= Pow10(b)
  {
    if a < b { Pow10Monotone(a, b - 1); }
  }

  lemma {:induction false} DigitsValueBound(s: string)
    requires AllDigits(s)
    ensures DigitsValue(s) < Pow10(|s|)
  {
    if s != [] { DigitsValueBound(s[..|s| - 1]); }
  }

  /** The longest prefix of `s` made of digits: what the greedy `(\d+)` takes. */
  function DigitRun(s: string): (r: string)
    ensures AllDigits(r) && r <= s
    ensures |r| < |s| ==> !IsDigit(s[|r|])
  {
    if s != [] && IsDigit(s[0]) then [s[0]] + DigitRun(s[1..]) else []
  }

  lemma {:induction false} DigitRunOfDigits(s: string)
    requires AllDigits(s)
    ensures DigitRun(s) == s
  {
    if s != [] { DigitRunOfDigits(s[1..]); }
  }

  // ===== the suffix match `name.match(/(.+) #(\d+)/)` =====

  /** A " #" followed by a digit starts at `i`, with a non-empty text before it. */
  predicate MarkerAt(s: string, i: nat)
  {
    1 <= i && i + 2 < |s| && s[i] == ' ' && s[i + 1] == '#' && IsDigit(s[i + 2])
  }

  /** The greatest position below `bound` where a marker starts: where the greedy `(.+)` stops. */
  function LastMarkerBefore(s: string, bound: nat): (r: Option<nat>)
    ensures r.Some? ==> r.value < bound && MarkerAt(s, r.value)
    ensures r.Some? ==> forall j: nat :: r.value < j < bound ==> !MarkerAt(s, j)
    ensures r.None? ==> forall j: nat :: j < bound ==> !MarkerAt(s, j)
    decreases bound
  {
    if bound == 0 then None
    else if MarkerAt(s, bound - 1) then Some(bound - 1)
    else LastMarkerBefore(s, bound - 1)
  }

  /** The two capture groups: the text before the marker and the number after it. */
  datatype Suffix = Suffix(prefix: string, number: nat)

  /**
   * The match of the unanchored pattern `(.+) #(\d+)`: the last " #<digits>"
   * with a non-empty text before it. Text after the digits is not captured.
   */
  function ParseSuffix(name: string): (r: Option<Suffix>)
    ensures r.Some? ==> r.value.prefix != [] && r.value.prefix < name
  {
    match LastMarkerBefore(name, |name|)
    case None => None
    case Some(i) => Some(Suffix(name[..i], DigitsValue(DigitRun(name[i + 2..]))))
  }

  /** The candidate tried after a collision: the number after " #" is incremented, or " #2" appended. */
  function Retry(name: string): (r: string)
    ensures ParseSuffix(name).Some? ==>
      ParseSuffix(r) == Some(Suffix(ParseSuffix(name).value.prefix, ParseSuffix(name).value.number + 1))
    ensures ParseSuffix(name).None? && name != [] ==> ParseSuffix(r) == Some(Suffix(name, 2))
  {
    // with no match the source falls back to `[null, name, 1]`
    var m := match ParseSuffix(name) case Some(m) => m case None => Suffix(name, 1);
    assert m.prefix != [] ==> ParseSuffix(m.prefix + " #" + NatToString(m.number + 1)) == Some(Suffix(m.prefix, m.number + 1)) by {
      if m.prefix != [] { ParseTagged(m.prefix, m.number + 1); }
    }
    m.prefix + " #" + NatToString(m.number + 1)
  }

  /** A name that ends in " #n" is read back as its prefix and n. */
  lemma ParseTagged(prefix: string, n: nat)
    requires prefix != []
    ensures ParseSuffix(prefix + " #" + NatToString(n)) == Some(Suffix(prefix, n))
  {
    var d := NatToString(n);
    var s := prefix + " #" + d;
    var p := |prefix|;
    assert MarkerAt(s, p) by { assert s[p + 2] == d[0]; }
    forall j: nat | p < j < |s| ensures !MarkerAt(s, j) {
      if j == p + 1 { assert s[j] == '#'; } else { assert s[j] == d[j - p - 2]; }
    }
    var r := LastMarkerBefore(s, |s|);
    assert r == Some(p);
    assert s[..p] == prefix;
    assert s[p + 2..] == d;
    DigitRunOfDigits(d);
    DigitsValueOfNatToString(n);
  }

  // ===== the registry and the unique-name rule =====

  function MaxLen(names: seq<string>): (r: nat)
    ensures forall i :: 0 <= i < |names| ==> |names[i]| <= r
  {
    if names == [] then 0
    else var m := MaxLen(names[1..]); if |names[0]| > m then |names[0]| else m
  }

  /**
   * Termination measure for the retry recursion. Every retried name is in the
   * registry, so its number stays below 10^(longest registered name), and each
   * retry either increments that number or goes from no suffix to a suffix.
   */
  function RetryBudget(names: seq<string>, name: string): (r: nat)
  {
    var bound := Pow10(MaxLen(names));
    match ParseSuffix(name)
    case Some(m) => if m.number < bound then bound - m.number else 0
    case None => if name == [] then bound + 2 else bound + 1
  }

  lemma RetryBudgetDecreases(names: seq<string>, name: string)
    requires name in names
    ensures RetryBudget(names, Retry(name)) < RetryBudget(names, name)
  {
    var bound := Pow10(MaxLen(names));
    assert |name| <= MaxLen(names);
    match ParseSuffix(name)
    case Some(m) =>
      var i := LastMarkerBefore(name, |name|).value;
      var ds := DigitRun(name[i + 2..]);
      DigitsValueBound(ds);
      Pow10Monotone(|ds|, MaxLen(names));
      ParseTagged(m.prefix, m.number + 1);
    case None =>
      if name != [] {
        ParseTagged(name, 2);
      } else {
        assert Retry(name) == " #2";
        assert LastMarkerBefore(" #2", 3) == None;
      }
  }

  /**
   * The name `getUniqueName(name)` hands out when the registry holds `names`:
   * the first candidate, following Retry, that is not registered yet.
   */
  function UniqueName(names: seq<string>, name: string): (r: string)
    ensures r !in names
    ensures name !in names ==> r == name
    decreases RetryBudget(names, name)
  {
    if name in names then
      RetryBudgetDecreases(names, name);
      UniqueName(names, Retry(name))
    else name
  }

  predicate NoDuplicates(names: seq<string>)
  {
    forall i, j :: 0 <= i < j < |names| ==> names[i] != names[j]
  }

  /** A registry without duplicates keeps none when the handed-out name is appended. */
  lemma RegistryStaysDuplicateFree(names: seq<string>, name: string)
    requires NoDuplicates(names)
    ensures NoDuplicates(names + [UniqueName(names, name)])
  {
  }

  /** A colliding name with no " #n" suffix is retried with " #2" appended. */
  lemma CollisionWithoutSuffix(names: seq<string>, name: string)
    requires name in names && ParseSuffix(name) == None
    ensures UniqueName(names, name) == UniqueName(names, name + " #2")
  {
    assert Retry(name) == name + " #2";
  }

  /** A colliding name "p #n" is retried as "p #(n+1)". */
  lemma CollisionWithSuffix(names: seq<string>, prefix: string, n: nat)
    requires prefix != [] && prefix + " #" + NatToString(n) in names
    ensures UniqueName(names, prefix + " #" + NatToString(n)) == UniqueName(names, prefix + " #" + NatToString(n + 1))
  {
    var name := prefix + " #" + NatToString(n);
    ParseTagged(prefix, n);
    assert Retry(name) == prefix + " #" + NatToString(n + 1);
  }

  /** Only the number right after the last " #" counts; anything following it is dropped. */
  lemma TrailingTextDropped()
    ensures Retry("Lamp #3 (old)") == "Lamp #4"
  {
    var s := "Lamp #3 (old)";
    assert MarkerAt(s, 4);
    forall j: nat | 4 < j < |s| ensures !MarkerAt(s, j) {
    }
    assert LastMarkerBefore(s, |s|) == Some(4);
    assert s[..4] == "Lamp";
    assert s[6..] == "3 (old)";
    assert DigitRun(s[6..]) == "3";
    assert DigitsValue("3") == 3;
    assert NatToString(4) == "4";
  }

  const Kitchen: string := "Smart plug (Kitchen)"

  /** "Smart plug (Kitchen)" carries no " #n" suffix. */
  lemma KitchenUntagged()
    ensures ParseSuffix(Kitchen) == None
  {
    forall j: nat | j < |Kitchen| ensures !MarkerAt(Kitchen, j) {
    }
    assert LastMarkerBefore(Kitchen, |Kitchen|) == None;
  }

  lemma SmallNumerals()
    ensures NatToString(2) == "2" && NatToString(3) == "3"
  {
    assert NatToString(2) == "2" && NatToString(3) == "3";
  }

  /** A second request for an untagged name collides once and gets " #2". */
  lemma SecondOfAKind(base: string)
    requires ParseSuffix(base) == None
    ensures UniqueName([base], base) == base + " #2"
  {
    CollisionWithoutSuffix([base], base);
    assert |base + " #2"| > |base|;
  }

  lemma TagsTwoThree(base: string)
    ensures base + " #2" == base + " #" + NatToString(2)
    ensures base + " #3" == base + " #" + NatToString(2 + 1)
  {
    SmallNumerals();
  }

  /** A third request collides twice and gets " #3". */
  lemma ThirdOfAKind(base: string)
    requires base != [] && ParseSuffix(base) == None
    ensures UniqueName([base, base + " #2"], base) == base + " #3"
  {
    var two := base + " #2";
    var three := base + " #3";
    TagsTwoThree(base);
    var both := [base, two];
    assert base in both && two in both;
    CollisionWithoutSuffix(both, base);
    CollisionWithSuffix(both, base, 2);
    assert three[|base| + 2] == '3' && two[|base| + 2] == '2';
    assert three != two;
    assert three != base;
    assert three !in both;
  }

  /** Three plugs in the same area get the plain name, then " #2", then " #3". */
  lemma KitchenPlugs()
    ensures UniqueName([], Kitchen) == Kitchen
    ensures UniqueName([Kitchen], Kitchen) == Kitchen + " #2"
    ensures UniqueName([Kitchen, Kitchen + " #2"], Kitchen) == Kitchen + " #3"
  {
    KitchenUntagged();
    SecondOfAKind(Kitchen);
    ThirdOfAKind(Kitchen);
  }

  /** The process-wide list of display names handed out so far. */
  class NameRegistry {
    var names: seq<string>

    constructor()
      ensures names == []
    {
      names := [];
    }

    /** Hands out a name not registered before and registers it. */
    method GetUniqueName(name: string) returns (r: string)
      modifies this
      ensures r == UniqueName(old(names), name)
      ensures r !in old(names) && (name !in old(names) ==> r == name)
      ensures names == old(names) + [r]
      ensures NoDuplicates(old(names)) ==> NoDuplicates(names)
      decreases RetryBudget(names, name)
    {
      if name in names {
        RetryBudgetDecreases(names, name);
        r := GetUniqueName(Retry(name));
      } else {
        names := names + [name];
        r := name;
      }
    }
  }

  /** Three registrations of one untagged name on a fresh registry: plain, then " #2", then " #3". */
  method SameNameThrice(base: string) returns (first: string, second: string, third: string)
    requires base != [] && ParseSuffix(base) == None
    ensures first == base && second == base + " #2" && third == base + " #3"
  {
    var registry := new NameRegistry();
    SecondOfAKind(base);
    ThirdOfAKind(base);
    first := registry.GetUniqueName(base);
    assert registry.names == [base];
    second := registry.GetUniqueName(base);
    assert registry.names == [base, base + " #2"];
    third := registry.GetUniqueName(base);
  }

  /** Three registrations of the same plug name on a fresh registry. */
  method KitchenScenario() returns (first: string, second: string, third: string)
    ensures first == Kitchen && second == Kitchen + " #2" && third == Kitchen + " #3"
  {
    KitchenUntagged();
    first, second, third := SameNameThrice(Kitchen);
  }

  // ===== arm states =====

  predicate KnownArmState(s: string)
  {
    s == ArmedAway || s == ArmedHome || s == DisarmedState
  }

  /** Maps the vendor's arm state to the security-system current state; unknown states are errors. */
  function HapArmState(statusType: string): (r: Result<SecurityState, Error>)
    ensures r.Ok? <==> KnownArmState(statusType)
    ensures r.Err? ==> r.error == UnknownArmState(statusType)
    ensures r == Ok(AwayArm) <==> statusType == ArmedAway
    ensures r == Ok(StayArm) <==> statusType == ArmedHome
    ensures r == Ok(Disarmed) <==> statusType == DisarmedState
  {
    if statusType == ArmedAway then Ok(AwayArm)
    else if statusType == ArmedHome then Ok(StayArm)
    else if statusType == DisarmedState then Ok(Disarmed)
    else Err(UnknownArmState(statusType))
  }

  /** Distinct known vendor states map to distinct accessory states. */
  lemma HapArmStateInjective(a: string, b: string)
    requires HapArmState(a).Ok? && HapArmState(b).Ok? && a != b
    ensures HapArmState(a).value != HapArmState(b).value
  {
  }
}

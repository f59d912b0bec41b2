/**
 * Settings: the per-screen padding table built from the command-line
 * arguments. For every enumerated screen all four amounts start at 0; each
 * argument whose leftmost pattern match selects the screen overwrites the
 * edge it names (edge letter `a`: all four), so the last one wins; the
 * screen's entry goes to the front of the table if the screen is primary
 * and to the back otherwise.
 */
module Padding {
  import opened Wrappers
  import opened Native
  import opened ArgPattern
  import opened Seqs

  /**
   * A monitor as `Screen.AllScreens` enumerates it, with its working area at
   * that moment; later reads go through the shell (`AppBar.Shell.workArea`).
   */
  datatype Screen = Screen(id: int, primary: bool, workingArea: Rect)

  /** Settings.ScreenPadding: the pixels to reserve on each edge of one screen. */
  datatype ScreenPadding = ScreenPadding(top: Int32, bottom: Int32, left: Int32, right: Int32)

  const NoPadding: ScreenPadding := ScreenPadding(0, 0, 0, 0)

  /** One element of Settings.Screens. */
  datatype Entry = Entry(screen: Screen, padding: ScreenPadding)

  /** The OverflowException `int.Parse` throws on a digit run beyond Int32. */
  datatype ArgError = Overflow(digits: string)

  /** The pattern built for a screen at enumeration index `index`. */
  function SelectorFor(screen: Screen, index: nat): Selector {
    if screen.primary then PrimaryScreen else SecondaryScreen(index)
  }

  /** `int.Parse` on a run of ASCII digits. */
  function ParseAmount(digits: string): (r: Result<Int32, ArgError>)
    requires AllDigits(digits)
    ensures r.Ok? <==> DigitsValue(digits) <= MaxInt32
    ensures r.Ok? ==> r.value == DigitsValue(digits) && r.value >= 0
    ensures r.Err? ==> r.error == Overflow(digits)
  {
    var v := DigitsValue(digits);
    if v <= MaxInt32 then Ok(v) else Err(Overflow(digits))
  }

  /** One argument applied to the four amounts: the body of the inner `foreach`. */
  function Step(p: ScreenPadding, arg: string, sel: Selector): (r: Result<ScreenPadding, ArgError>)
    ensures r.Err? <==> Overflows(arg, sel)
    ensures r.Ok? ==> forall letter :: IsSideLetter(letter) ==>
      AmountOf(r.value, letter) == if Sets(arg, sel, letter) then ArgValue(arg, sel) else AmountOf(p, letter)
  {
    match Find(arg, sel)
    case None => Ok(p)
    case Some(m) =>
      match ParseAmount(m.digits)
      case Err(e) => Err(e)
      case Ok(v) =>
        Ok(match m.edge
           case 't' => p.(top := v)
           case 'l' => p.(left := v)
           case 'b' => p.(bottom := v)
           case 'r' => p.(right := v)
           case 'a' => ScreenPadding(v, v, v, v)
           case _ => p)
  }

  /** The amounts after the arguments are applied, left to right, to `p`. */
  function PaddingFrom(p: ScreenPadding, args: seq<string>, sel: Selector): Result<ScreenPadding, ArgError>
    decreases |args|
  {
    if args == [] then Ok(p)
    else
      match Step(p, args[0], sel)
      case Err(e) => Err(e)
      case Ok(q) => PaddingFrom(q, args[1..], sel)
  }

  /** The padding the arguments give the screen at enumeration index `index`. */
  function ScreenPaddingOf(screen: Screen, index: nat, args: seq<string>): Result<ScreenPadding, ArgError> {
    PaddingFrom(NoPadding, args, SelectorFor(screen, index))
  }

  /**
   * The inner loop of ExtractArgs: the amounts one screen gets, with
   * `int.Parse`'s overflow as an error.
   */
  method ScreenPaddingFor(screen: Screen, index: nat, args: seq<string>) returns (r: Result<ScreenPadding, ArgError>)
    ensures r == ScreenPaddingOf(screen, index, args)
  {
    var top: Int32, bottom: Int32, left: Int32, right: Int32 := 0, 0, 0, 0;
    var sel := SelectorFor(screen, index);
    var i := 0;
    while i < |args|
      invariant 0 <= i <= |args|
      invariant PaddingFrom(ScreenPadding(top, bottom, left, right), args[i..], sel) == ScreenPaddingOf(screen, index, args)
    {
      assert args[i..][0] == args[i] && args[i..][1..] == args[i + 1..];
      var result := Find(args[i], sel);
      if result.Some? {
        var amount := ParseAmount(result.value.digits);
        if amount.Err? {
          return Err(amount.error);
        }
        match result.value.edge
        case 't' => top := amount.value;
        case 'l' => left := amount.value;
        case 'b' => bottom := amount.value;
        case 'r' => right := amount.value;
        case 'a' =>
          top := amount.value;
          left := amount.value;
          bottom := amount.value;
          right := amount.value;
        case _ =>
      }
      i := i + 1;
    }
    assert args[i..] == [];
    return Ok(ScreenPadding(top, bottom, left, right));
  }

  // ----- An independent account of the amounts: the last setting wins -----

  /** Whether the argument's leftmost match selects edge `letter` (directly or through `a`). */
  predicate Sets(arg: string, sel: Selector, letter: char) {
    var r := Find(arg, sel);
    r.Some? && (r.value.edge == letter || r.value.edge == 'a')
  }

  /** The value of the argument's leftmost match. */
  function ArgValue(arg: string, sel: Selector): nat
    requires Find(arg, sel).Some?
  {
    DigitsValue(Find(arg, sel).value.digits)
  }

  /** Whether the argument's leftmost match holds a value beyond Int32. */
  predicate Overflows(arg: string, sel: Selector) {
    Find(arg, sel).Some? && ArgValue(arg, sel) > MaxInt32
  }

  /** The value of the last argument that sets edge `letter`, if there is one. */
  function LastSetting(args: seq<string>, sel: Selector, letter: char): Option<nat>
    decreases |args|
  {
    if args == [] then None
    else
      match LastSetting(args[1..], sel, letter)
      case Some(v) => Some(v)
      case None => if Sets(args[0], sel, letter) then Some(ArgValue(args[0], sel)) else None
  }

  /** The amount of a padding on an ABEdge code. */
  function AmountOn(p: ScreenPadding, edge: int): int {
    if edge == ABE_TOP then p.top
    else if edge == ABE_BOTTOM then p.bottom
    else if edge == ABE_LEFT then p.left
    else p.right
  }

  /** The ABEdge code an edge letter names (one of t, b, l, r). */
  function EdgeOf(letter: char): int {
    if letter == 't' then ABE_TOP
    else if letter == 'b' then ABE_BOTTOM
    else if letter == 'l' then ABE_LEFT
    else ABE_RIGHT
  }

  /** The amount of a padding on the edge named by `letter`. */
  function AmountOf(p: ScreenPadding, letter: char): int {
    AmountOn(p, EdgeOf(letter))
  }

  predicate IsSideLetter(letter: char) {
    letter == 't' || letter == 'b' || letter == 'l' || letter == 'r'
  }

  /**
   * Every edge ends with the value of the last argument that sets it, and
   * keeps its starting amount when no argument does.
   */
  lemma {:induction false} LastSettingWins(p: ScreenPadding, args: seq<string>, sel: Selector, letter: char)
    requires IsSideLetter(letter) && PaddingFrom(p, args, sel).Ok?
    ensures AmountOf(PaddingFrom(p, args, sel).value, letter)
         == match LastSetting(args, sel, letter) case Some(v) => v case None => AmountOf(p, letter)
    decreases |args|
  {
    if args != [] {
      var q := Step(p, args[0], sel).value;
      LastSettingWins(q, args[1..], sel, letter);
    }
  }

  /** The table gets an error exactly when some matching argument's value is beyond Int32. */
  lemma {:induction false} OverflowIsError(p: ScreenPadding, args: seq<string>, sel: Selector)
    ensures PaddingFrom(p, args, sel).Err? <==> exists k :: 0 <= k < |args| && Overflows(args[k], sel)
    decreases |args|
  {
    if args != [] {
      match Step(p, args[0], sel)
      case Err(_) =>
        assert Overflows(args[0], sel);
      case Ok(q) =>
        OverflowIsError(q, args[1..], sel);
        assert !Overflows(args[0], sel);
        assert forall k :: 1 <= k < |args| ==> args[k] == args[1..][k - 1];
        if exists k :: 1 <= k < |args| && Overflows(args[k], sel) {
          var k :| 1 <= k < |args| && Overflows(args[k], sel);
          assert Overflows(args[1..][k - 1], sel);
        }
    }
  }

  /** An argument without a match leaves the amounts as they are, wherever it stands. */
  lemma {:induction false} NonMatchingIgnored(p: ScreenPadding, before: seq<string>, arg: string, after: seq<string>, sel: Selector)
    requires Find(arg, sel).None?
    ensures PaddingFrom(p, before + [arg] + after, sel) == PaddingFrom(p, before + after, sel)
    decreases |before|
  {
    if before == [] {
      var xs := before + [arg] + after;
      assert xs == [arg] + after;
      assert xs[0] == arg && xs[1..] == after && before + after == after;
      assert Step(p, arg, sel) == Ok(p);
    } else {
      assert (before + [arg] + after)[0] == before[0] == (before + after)[0];
      assert (before + [arg] + after)[1..] == before[1..] + [arg] + after;
      assert (before + after)[1..] == before[1..] + after;
      match Step(p, before[0], sel)
      case Err(_) =>
      case Ok(q) => NonMatchingIgnored(q, before[1..], arg, after, sel);
    }
  }

  /** Every amount the arguments give a screen lies between 0 and the Int32 maximum. */
  lemma AmountsNonNegative(screen: Screen, index: nat, args: seq<string>)
    requires ScreenPaddingOf(screen, index, args).Ok?
    ensures var p := ScreenPaddingOf(screen, index, args).value;
      p.top >= 0 && p.bottom >= 0 && p.left >= 0 && p.right >= 0
  {
    var sel := SelectorFor(screen, index);
    LastSettingWins(NoPadding, args, sel, 't');
    LastSettingWins(NoPadding, args, sel, 'b');
    LastSettingWins(NoPadding, args, sel, 'l');
    LastSettingWins(NoPadding, args, sel, 'r');
  }

  // ----- The table: primary first, the others in enumeration order -----

  /** The entries of the screens, in enumeration order, the first at index `index`. */
  function Entries(screens: seq<Screen>, index: nat, args: seq<string>): Result<seq<Entry>, ArgError>
    decreases |screens|
  {
    if screens == [] then Ok([])
    else
      match ScreenPaddingOf(screens[0], index, args)
      case Err(e) => Err(e)
      case Ok(p) =>
        match Entries(screens[1..], index + 1, args)
        case Err(e) => Err(e)
        case Ok(rest) => Ok([Entry(screens[0], p)] + rest)
  }

  /**
   * The outer loop of ExtractArgs: `acc` is the table so far; each primary
   * entry is inserted at index 0, each other entry appended.
   */
  function Arrange(acc: seq<Entry>, screens: seq<Screen>, index: nat, args: seq<string>): (r: Result<seq<Entry>, ArgError>)
    ensures r.Ok? ==> |r.value| == |acc| + |screens|
    decreases |screens|
  {
    if screens == [] then Ok(acc)
    else
      match ScreenPaddingOf(screens[0], index, args)
      case Err(e) => Err(e)
      case Ok(p) =>
        var e := Entry(screens[0], p);
        Arrange(if screens[0].primary then [e] + acc else acc + [e], screens[1..], index + 1, args)
  }

  function Primaries(es: seq<Entry>): seq<Entry> {
    if es == [] then [] else (if es[0].screen.primary then [es[0]] else []) + Primaries(es[1..])
  }

  function Secondaries(es: seq<Entry>): seq<Entry> {
    if es == [] then [] else (if es[0].screen.primary then [] else [es[0]]) + Secondaries(es[1..])
  }

  function Reverse<T>(s: seq<T>): seq<T> {
    if s == [] then [] else Reverse(s[1..]) + [s[0]]
  }

  /**
   * The table ExtractArgs builds on top of `acc`: the primary entries in
   * reverse enumeration order, then `acc`, then the other entries in
   * enumeration order.
   */
  lemma {:induction false} ArrangeSplits(acc: seq<Entry>, screens: seq<Screen>, index: nat, args: seq<string>)
    ensures Entries(screens, index, args).Err? ==> Arrange(acc, screens, index, args) == Err(Entries(screens, index, args).error)
    ensures Entries(screens, index, args).Ok? ==>
      var es := Entries(screens, index, args).value;
      Arrange(acc, screens, index, args) == Ok(Reverse(Primaries(es)) + acc + Secondaries(es))
    decreases |screens|
  {
    if screens == [] {
      assert Reverse(Primaries([])) + acc + Secondaries([]) == acc;
    } else if ScreenPaddingOf(screens[0], index, args).Ok? {
      var e := Entry(screens[0], ScreenPaddingOf(screens[0], index, args).value);
      var acc' := if screens[0].primary then [e] + acc else acc + [e];
      ArrangeSplits(acc', screens[1..], index + 1, args);
      if Entries(screens[1..], index + 1, args).Ok? {
        var rest := Entries(screens[1..], index + 1, args).value;
        ConsSplit(e, rest);
        var rp := Reverse(Primaries(rest));
        if screens[0].primary {
          ConcatAssoc(rp, [e], acc);
        } else {
          ConcatAssoc(rp, acc, [e]);
          ConcatAssoc(rp + acc, [e], Secondaries(rest));
        }
      }
    }
  }

  /** How one more entry at the front changes the two halves. */
  lemma ConsSplit(e: Entry, rest: seq<Entry>)
    ensures e.screen.primary ==>
      Reverse(Primaries([e] + rest)) == Reverse(Primaries(rest)) + [e] && Secondaries([e] + rest) == Secondaries(rest)
    ensures !e.screen.primary ==>
      Primaries([e] + rest) == Primaries(rest) && Secondaries([e] + rest) == [e] + Secondaries(rest)
  {
    var es := [e] + rest;
    assert es[0] == e && es[1..] == rest;
    if e.screen.primary {
      assert Primaries(es) == [e] + Primaries(rest);
      assert ([e] + Primaries(rest))[1..] == Primaries(rest);
    }
  }

  function ScreensOf(es: seq<Entry>): seq<Screen> {
    if es == [] then [] else [es[0].screen] + ScreensOf(es[1..])
  }

  function SecondaryScreens(screens: seq<Screen>): seq<Screen> {
    if screens == [] then [] else (if screens[0].primary then [] else [screens[0]]) + SecondaryScreens(screens[1..])
  }

  function CountPrimary(screens: seq<Screen>): nat {
    if screens == [] then 0 else (if screens[0].primary then 1 else 0) + CountPrimary(screens[1..])
  }

  /** The entries are the screens, in order, each with the padding its own enumeration index selects. */
  lemma {:induction false} EntriesFollowScreens(screens: seq<Screen>, index: nat, args: seq<string>)
    requires Entries(screens, index, args).Ok?
    ensures var es := Entries(screens, index, args).value;
      |es| == |screens| &&
      forall k :: 0 <= k < |es| ==>
        es[k].screen == screens[k] && ScreenPaddingOf(screens[k], index + k, args) == Ok(es[k].padding)
    decreases |screens|
  {
    if screens != [] {
      EntriesFollowScreens(screens[1..], index + 1, args);
      var es := Entries(screens, index, args).value;
      var rest := Entries(screens[1..], index + 1, args).value;
      assert es[1..] == rest;
      forall k | 1 <= k < |es|
        ensures es[k].screen == screens[k] && ScreenPaddingOf(screens[k], index + k, args) == Ok(es[k].padding)
      {
        assert es[k] == rest[k - 1];
        assert screens[k] == screens[1..][k - 1];
      }
    }
  }

  /** As many primary entries as primary screens; the other entries' screens are the secondary screens in order. */
  lemma {:induction false} EntriesSplit(screens: seq<Screen>, index: nat, args: seq<string>)
    requires Entries(screens, index, args).Ok?
    ensures var es := Entries(screens, index, args).value;
      |Primaries(es)| == CountPrimary(screens) && ScreensOf(Secondaries(es)) == SecondaryScreens(screens)
    decreases |screens|
  {
    if screens != [] {
      EntriesSplit(screens[1..], index + 1, args);
      var es := Entries(screens, index, args).value;
      var rest := Entries(screens[1..], index + 1, args).value;
      assert es[0].screen == screens[0];
      assert es[1..] == rest;
      if !screens[0].primary {
        var ss := [es[0]] + Secondaries(rest);
        assert Secondaries(es) == ss;
        assert ss[0] == es[0] && ss[1..] == Secondaries(rest);
        assert ScreensOf(ss) == [screens[0]] + ScreensOf(Secondaries(rest));
        assert SecondaryScreens(screens) == [screens[0]] + SecondaryScreens(screens[1..]);
      } else {
        assert Secondaries(es) == Secondaries(rest);
        assert SecondaryScreens(screens) == SecondaryScreens(screens[1..]);
      }
    }
  }

  /**
   * Starting from an empty Settings.Screens with exactly one primary
   * screen: one entry per screen, the primary one at index 0, the others
   * after it in enumeration order.
   */
  lemma PrimaryFirst(screens: seq<Screen>, args: seq<string>)
    requires CountPrimary(screens) == 1
    requires Arrange([], screens, 0, args).Ok?
    ensures var t := Arrange([], screens, 0, args).value;
      |t| == |screens| && t[0].screen.primary && ScreensOf(t[1..]) == SecondaryScreens(screens)
  {
    ArrangeSplits([], screens, 0, args);
    var es := Entries(screens, 0, args).value;
    EntriesSplit(screens, 0, args);
    EntriesFollowScreens(screens, 0, args);
    var ps := Primaries(es);
    var ss := Secondaries(es);
    PrimariesArePrimary(es);
    SplitLength(es);
    assert |ps| == 1 && ps[0].screen.primary;
    assert Reverse(ps) == [ps[0]];
    var t := Arrange([], screens, 0, args).value;
    assert t == [ps[0]] + [] + ss;
    assert t[1..] == ss;
  }

  lemma {:induction false} PrimariesArePrimary(es: seq<Entry>)
    ensures forall k :: 0 <= k < |Primaries(es)| ==> Primaries(es)[k].screen.primary
    decreases |es|
  {
    if es != [] {
      PrimariesArePrimary(es[1..]);
      var head := if es[0].screen.primary then [es[0]] else [];
      assert Primaries(es) == head + Primaries(es[1..]);
      forall k | 0 <= k < |Primaries(es)|
        ensures Primaries(es)[k].screen.primary
      {
        if k >= |head| {
          assert Primaries(es)[k] == Primaries(es[1..])[k - |head|];
        }
      }
    }
  }

  lemma {:induction false} SplitLength(es: seq<Entry>)
    ensures |Primaries(es)| + |Secondaries(es)| == |es|
    decreases |es|
  {
    if es != [] {
      SplitLength(es[1..]);
    }
  }

  /** Settings: the static list of (screen, padding) pairs. */
  class Settings {
    var screens: seq<Entry>

    constructor ()
      ensures screens == []
    {
      screens := [];
    }

    /**
     * Settings.ExtractArgs: one entry per enumerated screen, primary entries
     * inserted at the front, the others appended; an out-of-range amount
     * stops it with the overflow error.
     */
    method ExtractArgs(allScreens: seq<Screen>, args: seq<string>) returns (r: Result<(), ArgError>)
      modifies this
      ensures match Arrange(old(screens), allScreens, 0, args)
              case Ok(t) => r.Ok? && screens == t
              case Err(e) => r == Err(e)
    {
      var index := 0;
      while index < |allScreens|
        invariant 0 <= index <= |allScreens|
        invariant Arrange(screens, allScreens[index..], index, args) == Arrange(old(screens), allScreens, 0, args)
      {
        assert allScreens[index..][0] == allScreens[index] && allScreens[index..][1..] == allScreens[index + 1..];
        var screen := allScreens[index];
        var padding := ScreenPaddingFor(screen, index, args);
        if padding.Err? {
          return Err(padding.error);
        }
        var entry := Entry(screen, padding.value);
        if screen.primary {
          screens := [entry] + screens;
        } else {
          screens := screens + [entry];
        }
        index := index + 1;
      }
      assert allScreens[index..] == [];
      return Ok(());
    }
  }
}

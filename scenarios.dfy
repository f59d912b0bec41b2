/** Worked examples of the whole pipeline, from arguments to shell messages. */
module Scenarios {
  import opened Wrappers
  import opened Native
  import opened ArgPattern
  import opened Padding
  import opened AppBar

  /**
   * `-1t=5` is read by the primary screen (its selector includes the literal
   * 1) and by the secondary screen at enumeration index 1 alike.
   */
  lemma OneSelectsPrimaryAndSecondOne()
    ensures PaddingFrom(NoPadding, ["-1t=5"], PrimaryScreen) == Ok(ScreenPadding(5, 0, 0, 0))
    ensures PaddingFrom(NoPadding, ["-1t=5"], SecondaryScreen(1)) == Ok(ScreenPadding(5, 0, 0, 0))
  {
    var s := "-1t=5";
    assert DigitRun(s, 5) == 0;
    assert DigitRun(s, 4) == 1;
    assert s[4..5] == "5";
    assert DigitsValue("5") == 5 by { assert "5"[..0] == []; }
    var m := Match(0, "1", 't', "5");
    assert TailAt(s, 0, "1", 2) == Some(m);
    assert s[1..][0] == '1' && "p"[0] == 'p' && "a"[0] == 'a';
    assert !("p" <= s[1..]) && !("a" <= s[1..]) && "1" <= s[1..];
    assert AltMatch(s, 0, ["1"]) == Some(m);
    assert ["p", "a", "1"][1..] == ["a", "1"] && ["a", "1"][1..] == ["1"];
    assert AltMatch(s, 0, ["p", "a", "1"]) == Some(m);
    assert Find(s, PrimaryScreen) == Some(m);
    assert NatToString(1) == "1";
    assert "s"[0] == 's';
    assert !("s" <= s[1..]);
    assert ["s", "a", "1"][1..] == ["a", "1"];
    assert AltMatch(s, 0, ["s", "a", "1"]) == Some(m);
    assert Find(s, SecondaryScreen(1)) == Some(m);
    var args: seq<string> := [s];
    assert args[1..] == [];
  }

  /**
   * One primary screen with working area (0, 0, 1920, 1080) and the argument
   * `-pt=40`: the table holds one entry, 40 pixels on top, and with a shell
   * that grants what it is asked and reports the working area unchanged,
   * the session sends NEW, QUERYPOS and a
   * SETPOS for the rectangle (0, 0, 1920, 40).
   */
  lemma PrimaryTopForty(h: Handle)
    ensures var screen := Screen(0, true, Rect(0, 0, 1920, 1080));
      var table := [Entry(screen, ScreenPadding(40, 0, 0, 0))];
      var grant := Shell((rc, edge, log) => rc, (scr: Screen, log) => scr.workingArea);
      var d := BarData(h, screen.workingArea, ABE_TOP);
      Arrange([], [screen], 0, ["-pt=40"]) == Ok(table) &&
      SessionMessages(grant, [], h, PaddingRequests(table))
        == [Message(ABM_NEW, d), Message(ABM_QUERYPOS, d), Message(ABM_SETPOS, d.(rc := Rect(0, 0, 1920, 40)))]
  {
    var screen := Screen(0, true, Rect(0, 0, 1920, 1080));
    var s := "-pt=40";
    assert DigitRun(s, 6) == 0 && DigitRun(s, 5) == 1 && DigitRun(s, 4) == 2;
    assert s[4..6] == "40";
    assert DigitsValue("40") == 40 by {
      assert "40"[..1] == "4" && "4"[..0] == [];
    }
    var m := Match(0, "p", 't', "40");
    assert s[1..][0] == 'p' && "p"[0] == 'p';
    assert "p" <= s[1..];
    assert TailAt(s, 0, "p", 2) == Some(m);
    assert AltMatch(s, 0, ["p", "a", "1"]) == Some(m);
    assert Find(s, PrimaryScreen) == Some(m);
    var args: seq<string> := [s];
    assert args[1..] == [];
    assert ParseAmount("40") == Ok(40);
    assert Step(NoPadding, s, PrimaryScreen) == Ok(ScreenPadding(40, 0, 0, 0));
    assert SelectorFor(screen, 0) == PrimaryScreen;
    assert args[0] == s;
    assert PaddingFrom(NoPadding, args, PrimaryScreen) == PaddingFrom(ScreenPadding(40, 0, 0, 0), [], PrimaryScreen);
    assert ScreenPaddingOf(screen, 0, args) == Ok(ScreenPadding(40, 0, 0, 0));
    var screens := [screen];
    assert screens[1..] == [];
    var table := [Entry(screen, ScreenPadding(40, 0, 0, 0))];
    assert screens[0] == screen;
    assert Arrange([], screens, 0, args) == Arrange([Entry(screen, ScreenPadding(40, 0, 0, 0))] + [], [], 1, args);
    assert [Entry(screen, ScreenPadding(40, 0, 0, 0))] + [] == table;
    assert Arrange([], screens, 0, args) == Ok(table);
    assert table[1..] == [];
    assert PaddingRequests(table) == [Request(screen, ABE_TOP, 40)];
  }
}

/**
 * ProgramForm: the app-bar protocol with the shell. Each reservation is a
 * new hidden form registered with ABM_NEW, placed with ABM_QUERYPOS, pinned
 * to `amount` pixels on its edge and committed with ABM_SETPOS; a session
 * reserves every positive amount of the table in a fixed order, and Reset
 * sends ABM_REMOVE for every open form.
 */
module AppBar {
  import opened Wrappers
  import opened Native
  import opened Padding
  import opened Seqs

  /** The ArgumentOutOfRangeException thrown for an edge outside ABEdge. */
  datatype EdgeError = ArgumentOutOfRange

  /** How thick a rectangle is across the axis of `edge`. */
  function Thickness(rc: Rect, edge: int): int {
    if edge == ABE_TOP || edge == ABE_BOTTOM then rc.bottom - rc.top else rc.right - rc.left
  }

  /** The coordinate the clamp computes for `edge` fits in an Int32 without wrapping. */
  predicate ClampFits(rc: Rect, edge: int, amount: Int32) {
    if edge == ABE_TOP then rc.top + amount <= MaxInt32 && rc.top + amount >= MinInt32
    else if edge == ABE_BOTTOM then rc.bottom - amount >= MinInt32 && rc.bottom - amount <= MaxInt32
    else if edge == ABE_LEFT then rc.left + amount <= MaxInt32 && rc.left + amount >= MinInt32
    else rc.right - amount >= MinInt32 && rc.right - amount <= MaxInt32
  }

  /**
   * `r` keeps every coordinate of `rc` but the one opposite `edge`: the
   * edge itself and the two sides across it stay where the shell put them.
   */
  predicate AnchoredOn(rc: Rect, r: Rect, edge: int) {
    (edge != ABE_BOTTOM ==> r.top == rc.top) &&
    (edge != ABE_TOP ==> r.bottom == rc.bottom) &&
    (edge != ABE_RIGHT ==> r.left == rc.left) &&
    (edge != ABE_LEFT ==> r.right == rc.right)
  }

  /**
   * The switch between ABM_QUERYPOS and ABM_SETPOS: pins the queried
   * rectangle to `amount` pixels on `edge`, in C# unchecked arithmetic.
   */
  function Clamp(rc: Rect, edge: int, amount: Int32): (r: Result<Rect, EdgeError>)
    ensures r.Err? <==> !IsEdge(edge)
    ensures r.Ok? ==> AnchoredOn(rc, r.value, edge)
    ensures r.Ok? ==> (Thickness(r.value, edge) - amount) % 0x1_0000_0000 == 0
    ensures r.Ok? && ClampFits(rc, edge, amount) ==> Thickness(r.value, edge) == amount
  {
    if edge == ABE_TOP then Ok(rc.(bottom := Wrap32(rc.top + amount)))
    else if edge == ABE_BOTTOM then Ok(rc.(top := Wrap32(rc.bottom - amount)))
    else if edge == ABE_LEFT then Ok(rc.(right := Wrap32(rc.left + amount)))
    else if edge == ABE_RIGHT then Ok(rc.(left := Wrap32(rc.right - amount)))
    else Err(ArgumentOutOfRange)
  }

  /**
   * The shell's answer to ABM_QUERYPOS: the rectangle it grants for the
   * proposed one on the given edge, given every message it has received
   * before. The shell is not part of this model; any function will do.
   */
  type QueryPos = (Rect, int, seq<Message>) -> Rect

  /**
   * A screen's working area as `Screen.WorkingArea` reports it, given every
   * message the shell has received: the shell takes the space of committed
   * app bars out of it. Not part of this model either; any function will do.
   */
  type WorkArea = (Screen, seq<Message>) -> Rect

  /** The shell as the program sees it: its answer to a query and the working areas it keeps. */
  datatype Shell = Shell(queryPos: QueryPos, workArea: WorkArea)

  /** The APPBARDATA CreateForm fills in before its first message, proposing `area`. */
  function BarData(h: Handle, area: Rect, edge: int): AppBarData {
    NewAppBarData().(hWnd := h, uEdge := edge, rc := area)
  }

  /**
   * The messages CreateForm sends for a new form `h`, given the messages
   * the shell has already received: ABM_NEW and ABM_QUERYPOS with the
   * screen's working area as it is now, then (for a valid edge only)
   * ABM_SETPOS with the shell's answer to the query pinned to `amount`
   * pixels.
   */
  function FormMessages(shell: Shell, log: seq<Message>, h: Handle, screen: Screen, edge: int, amount: Int32): (ms: seq<Message>)
    ensures |ms| == if IsEdge(edge) then 3 else 2
    ensures ms[0].code == ABM_NEW && ms[1].code == ABM_QUERYPOS
    ensures IsEdge(edge) ==> ms[2].code == ABM_SETPOS
    ensures ms[0].data.hWnd == ms[1].data.hWnd == h && ms[0].data.uEdge == ms[1].data.uEdge == edge
    ensures IsEdge(edge) ==> ms[2].data.hWnd == h && ms[2].data.uEdge == edge
    ensures ms[0].data.rc == ms[1].data.rc == shell.workArea(screen, log)
    ensures IsEdge(edge) ==>
      var granted := shell.queryPos(shell.workArea(screen, log), edge, log + [ms[0]]);
      AnchoredOn(granted, ms[2].data.rc, edge) &&
      (ClampFits(granted, edge, amount) ==> Thickness(ms[2].data.rc, edge) == amount)
  {
    var d := BarData(h, shell.workArea(screen, log), edge);
    var asked := Message(ABM_NEW, d);
    var granted := d.(rc := shell.queryPos(d.rc, d.uEdge, log + [asked]));
    [asked, Message(ABM_QUERYPOS, d)] +
      match Clamp(granted.rc, edge, amount)
      case Ok(rc) => [Message(ABM_SETPOS, granted.(rc := rc))]
      case Err(_) => []
  }

  /** One CreateForm call: the screen, the edge code and the amount. */
  datatype Request = Request(screen: Screen, edge: int, amount: Int32)

  /** The ABEdge members in the order CreatePadding visits them. */
  function Rank(edge: int): int {
    if edge == ABE_TOP then 0 else if edge == ABE_BOTTOM then 1 else if edge == ABE_LEFT then 2 else 3
  }

  /**
   * The CreateForm calls for one table entry: TOP, BOTTOM, LEFT, RIGHT in
   * that order, each only when its amount is positive.
   */
  function ScreenRequests(e: Entry): seq<Request> {
    var p := e.padding;
    EdgeRequest(e.screen, ABE_TOP, p.top) + EdgeRequest(e.screen, ABE_BOTTOM, p.bottom) +
    EdgeRequest(e.screen, ABE_LEFT, p.left) + EdgeRequest(e.screen, ABE_RIGHT, p.right)
  }

  /**
   * The calls for an entry are for its screen, one per positive amount,
   * carrying that amount, in the order TOP, BOTTOM, LEFT, RIGHT.
   */
  lemma ScreenRequestsSpec(e: Entry)
    ensures var rs := ScreenRequests(e);
      (forall r <- rs :: r.screen == e.screen && IsEdge(r.edge) && r.amount > 0 && r.amount == AmountOn(e.padding, r.edge)) &&
      (forall i, j :: 0 <= i < j < |rs| ==> Rank(rs[i].edge) < Rank(rs[j].edge)) &&
      (forall edge :: IsEdge(edge) ==> (AmountOn(e.padding, edge) > 0 <==> exists r <- rs :: r.edge == edge))
  {
  }

  /** The call for one edge: none when its amount is not positive. */
  function EdgeRequest(screen: Screen, edge: int, amount: Int32): seq<Request> {
    if amount > 0 then [Request(screen, edge, amount)] else []
  }

  /** The CreateForm calls of CreatePadding, entry after entry. */
  function PaddingRequests(table: seq<Entry>): seq<Request>
    decreases |table|
  {
    if table == [] then [] else ScreenRequests(table[0]) + PaddingRequests(table[1..])
  }

  /** The number of positive amounts in the table. */
  function PositiveAmounts(table: seq<Entry>): nat
    decreases |table|
  {
    if table == [] then 0
    else
      var p := table[0].padding;
      (if p.top > 0 then 1 else 0) + (if p.bottom > 0 then 1 else 0) +
      (if p.left > 0 then 1 else 0) + (if p.right > 0 then 1 else 0) +
      PositiveAmounts(table[1..])
  }

  /** CreatePadding calls CreateForm once per positive amount. */
  lemma {:induction false} OneRequestPerPositiveAmount(table: seq<Entry>)
    ensures |PaddingRequests(table)| == PositiveAmounts(table)
    decreases |table|
  {
    if table != [] {
      OneRequestPerPositiveAmount(table[1..]);
    }
  }

  /** The calls for a table split in two are those of the first part, then those of the second. */
  lemma {:induction false} RequestsInTableOrder(t1: seq<Entry>, t2: seq<Entry>)
    ensures PaddingRequests(t1 + t2) == PaddingRequests(t1) + PaddingRequests(t2)
    decreases |t1|
  {
    if t1 == [] {
      assert t1 + t2 == t2;
    } else {
      assert (t1 + t2)[0] == t1[0] && (t1 + t2)[1..] == t1[1..] + t2;
      RequestsInTableOrder(t1[1..], t2);
    }
  }

  /** The calls for the first i + 1 entries: those for the first i, then the four edges of entry i. */
  lemma PaddingRequestsSnoc(table: seq<Entry>, i: nat)
    requires i < |table|
    ensures var e := table[i];
      PaddingRequests(table[..i + 1])
      == PaddingRequests(table[..i]) + EdgeRequest(e.screen, ABE_TOP, e.padding.top) +
         EdgeRequest(e.screen, ABE_BOTTOM, e.padding.bottom) + EdgeRequest(e.screen, ABE_LEFT, e.padding.left) +
         EdgeRequest(e.screen, ABE_RIGHT, e.padding.right)
  {
    RequestsInTableOrder(table[..i], [table[i]]);
    assert table[..i + 1] == table[..i] + [table[i]];
    assert PaddingRequests([table[i]]) == ScreenRequests(table[i]);
  }

  /** The requests of a session all name an ABEdge member. */
  predicate ValidRequests(reqs: seq<Request>) {
    forall i :: 0 <= i < |reqs| ==> IsEdge(reqs[i].edge)
  }

  lemma {:induction false} PaddingRequestsValid(table: seq<Entry>)
    ensures ValidRequests(PaddingRequests(table))
    decreases |table|
  {
    if table != [] {
      PaddingRequestsValid(table[1..]);
    }
  }

  /**
   * The messages a sequence of CreateForm calls sends, the k-th with the
   * handle `h + k`, each call's query seeing every earlier message.
   */
  function SessionMessages(shell: Shell, log: seq<Message>, h: Handle, reqs: seq<Request>): seq<Message>
    decreases |reqs|
  {
    if reqs == [] then []
    else
      var ms := FormMessages(shell, log, h, reqs[0].screen, reqs[0].edge, reqs[0].amount);
      ms + SessionMessages(shell, log + ms, h + 1, reqs[1..])
  }

  /** One more call at the end of a session adds its own messages at the end. */
  lemma {:induction false} SessionMessagesSnoc(shell: Shell, log: seq<Message>, h: Handle, reqs: seq<Request>, r: Request)
    ensures SessionMessages(shell, log, h, reqs + [r])
         == SessionMessages(shell, log, h, reqs) +
            FormMessages(shell, log + SessionMessages(shell, log, h, reqs), h + |reqs|, r.screen, r.edge, r.amount)
    decreases |reqs|
  {
    if reqs == [] {
      assert reqs + [r] == [r];
      assert log + [] == log;
    } else {
      var ms := FormMessages(shell, log, h, reqs[0].screen, reqs[0].edge, reqs[0].amount);
      var log' := log + ms;
      var tail := SessionMessages(shell, log', h + 1, reqs[1..]);
      var reqs' := reqs + [r];
      assert reqs'[0] == reqs[0] && reqs'[1..] == reqs[1..] + [r];
      assert SessionMessages(shell, log, h, reqs') == ms + SessionMessages(shell, log', h + 1, reqs[1..] + [r]);
      SessionMessagesSnoc(shell, log', h + 1, reqs[1..], r);
      assert log' + tail == log + (ms + tail);
    }
  }

  /** Three messages per call. */
  lemma {:induction false} SessionLength(shell: Shell, log: seq<Message>, h: Handle, reqs: seq<Request>)
    requires ValidRequests(reqs)
    ensures |SessionMessages(shell, log, h, reqs)| == 3 * |reqs|
    decreases |reqs|
  {
    if reqs != [] {
      SessionLength(shell, log + FormMessages(shell, log, h, reqs[0].screen, reqs[0].edge, reqs[0].amount), h + 1, reqs[1..]);
    }
  }

  /**
   * The k-th call of a session sends NEW, QUERYPOS and SETPOS at positions
   * 3k, 3k+1 and 3k+2, all for the form `h + k` and the call's edge, the
   * first two with the screen's working area as it is after the earlier
   * calls, the last one anchored on the shell's answer and `amount` thick
   * unless the pinned coordinate wraps.
   */
  lemma {:induction false} SessionMessagesAt(shell: Shell, log: seq<Message>, h: Handle, reqs: seq<Request>, k: nat)
    requires ValidRequests(reqs) && k < |reqs|
    ensures |SessionMessages(shell, log, h, reqs)| == 3 * |reqs|
    ensures var s := SessionMessages(shell, log, h, reqs);
      var area := shell.workArea(reqs[k].screen, log + s[..3 * k]);
      var granted := shell.queryPos(area, reqs[k].edge, log + s[..3 * k + 1]);
      s[3 * k].code == ABM_NEW && s[3 * k + 1].code == ABM_QUERYPOS && s[3 * k + 2].code == ABM_SETPOS &&
      s[3 * k].data.hWnd == s[3 * k + 1].data.hWnd == s[3 * k + 2].data.hWnd == h + k &&
      s[3 * k].data.uEdge == s[3 * k + 1].data.uEdge == s[3 * k + 2].data.uEdge == reqs[k].edge &&
      s[3 * k].data.rc == s[3 * k + 1].data.rc == area &&
      AnchoredOn(granted, s[3 * k + 2].data.rc, reqs[k].edge) &&
      (ClampFits(granted, reqs[k].edge, reqs[k].amount) ==>
         Thickness(s[3 * k + 2].data.rc, reqs[k].edge) == reqs[k].amount)
    decreases k
  {
    SessionCallAt(shell, log, h, reqs, k);
    var s := SessionMessages(shell, log, h, reqs);
    var fm := s[3 * k..3 * k + 3];
    assert s[3 * k] == fm[0] && s[3 * k + 1] == fm[1] && s[3 * k + 2] == fm[2];
    assert log + s[..3 * k + 1] == (log + s[..3 * k]) + [fm[0]];
  }

  /** The k-th call of a session sends FormMessages, given every message before it. */
  lemma SessionCallAt(shell: Shell, log: seq<Message>, h: Handle, reqs: seq<Request>, k: nat)
    requires ValidRequests(reqs) && k < |reqs|
    ensures |SessionMessages(shell, log, h, reqs)| == 3 * |reqs|
    ensures var s := SessionMessages(shell, log, h, reqs);
      s[3 * k..3 * k + 3] == FormMessages(shell, log + s[..3 * k], h + k, reqs[k].screen, reqs[k].edge, reqs[k].amount)
  {
    var s := SessionMessages(shell, log, h, reqs);
    var pre := SessionMessages(shell, log, h, reqs[..k]);
    var b := reqs[k..];
    SessionPrefix(shell, log, h, reqs, k);
    SessionMessagesCons(shell, log + pre, h + k, b);
    var fm := FormMessages(shell, log + pre, h + k, b[0].screen, b[0].edge, b[0].amount);
    var rest := SessionMessages(shell, (log + pre) + fm, h + k + 1, b[1..]);
    ConcatHead(s[3 * k..], fm, rest);
    assert s[3 * k..3 * k + 3] == s[3 * k..][..3];
    FormMessagesFrom(shell, log + pre, log + s[..3 * k], h + k, b[0], reqs[k]);
  }

  /**
   * The first k calls of a session send the first 3k messages, and the
   * rest of the session follows them.
   */
  lemma SessionPrefix(shell: Shell, log: seq<Message>, h: Handle, reqs: seq<Request>, k: nat)
    requires ValidRequests(reqs) && k <= |reqs|
    ensures var s := SessionMessages(shell, log, h, reqs);
      var pre := SessionMessages(shell, log, h, reqs[..k]);
      |s| == 3 * |reqs| && |pre| == 3 * k && s[..3 * k] == pre &&
      s[3 * k..] == SessionMessages(shell, log + pre, h + k, reqs[k..])
  {
    var a, b := reqs[..k], reqs[k..];
    assert reqs == a + b && |a| == k;
    assert ValidRequests(a) by {
      assert forall i :: 0 <= i < k ==> a[i] == reqs[i];
    }
    SessionLength(shell, log, h, reqs);
    SessionLength(shell, log, h, a);
    SessionMessagesAppend(shell, log, h, a, b);
  }

  /** FormMessages depends on nothing but its arguments. */
  lemma FormMessagesFrom(shell: Shell, log: seq<Message>, log': seq<Message>, h: Handle, r: Request, r': Request)
    requires log == log' && r == r'
    ensures FormMessages(shell, log, h, r.screen, r.edge, r.amount) == FormMessages(shell, log', h, r'.screen, r'.edge, r'.amount)
  {
  }

  /** A session of the calls `a + b` is the session of `a` followed by the session of `b`. */
  lemma {:induction false} SessionMessagesAppend(shell: Shell, log: seq<Message>, h: Handle, a: seq<Request>, b: seq<Request>)
    ensures var sa := SessionMessages(shell, log, h, a);
      SessionMessages(shell, log, h, a + b) == sa + SessionMessages(shell, log + sa, h + |a|, b)
    decreases |a|
  {
    if a == [] {
      assert a + b == b;
      assert log + [] == log;
    } else {
      var ms := FormMessages(shell, log, h, a[0].screen, a[0].edge, a[0].amount);
      var sa' := SessionMessages(shell, log + ms, h + 1, a[1..]);
      var sb := SessionMessages(shell, (log + ms) + sa', h + 1 + |a[1..]|, b);
      SessionMessagesCons(shell, log, h, a);
      SessionMessagesAppend(shell, log + ms, h + 1, a[1..], b);
      ConcatTail(a, b);
      SessionMessagesCons(shell, log, h, a + b);
      ConcatAssoc(log, ms, sa');
      ConcatAssoc(ms, sa', sb);
      var sa := SessionMessages(shell, log, h, a);
      assert sa == ms + sa';
      assert log + sa == (log + ms) + sa';
      assert h + |a| == h + 1 + |a[1..]|;
      assert SessionMessages(shell, log + sa, h + |a|, b) == sb;
      assert SessionMessages(shell, log, h, a + b) == ms + (sa' + sb);
    }
  }

  /** A session with at least one call: that call's messages, then the rest of the session. */
  lemma SessionMessagesCons(shell: Shell, log: seq<Message>, h: Handle, reqs: seq<Request>)
    requires reqs != []
    ensures var ms := FormMessages(shell, log, h, reqs[0].screen, reqs[0].edge, reqs[0].amount);
      SessionMessages(shell, log, h, reqs) == ms + SessionMessages(shell, log + ms, h + 1, reqs[1..])
  {
  }

  /** The data of the APPBARDATA Reset sends for a form: size and handle, the rest zero. */
  function RemoveData(h: Handle): AppBarData {
    NewAppBarData().(hWnd := h)
  }

  /** The messages Reset sends: one ABM_REMOVE per open form, in order, carrying its handle. */
  function RemoveMessages(forms: seq<Handle>): (ms: seq<Message>)
    ensures |ms| == |forms|
    ensures forall i :: 0 <= i < |forms| ==> ms[i].code == ABM_REMOVE && ms[i].data.hWnd == forms[i]
    ensures forall m <- ms :: m.data == RemoveData(m.data.hWnd)
    decreases |forms|
  {
    if forms == [] then []
    else RemoveMessages(forms[..|forms| - 1]) + [Message(ABM_REMOVE, RemoveData(forms[|forms| - 1]))]
  }

  /** The handles `h`, `h + 1`, ..., of `n` forms created one after another. */
  function Handles(h: Handle, n: nat): (hs: seq<Handle>)
    ensures |hs| == n && forall i :: 0 <= i < n ==> hs[i] == h + i
    decreases n
  {
    if n == 0 then [] else Handles(h, n - 1) + [h + n - 1]
  }

  /**
   * The program: the forms it has open, the handle its next form will get,
   * and every SHAppBarMessage call the shell has received from it.
   */
  class ProgramForm {
    const shell: Shell
    var openForms: seq<Handle>
    var nextHandle: Handle
    var log: seq<Message>

    /** Handles are fresh, and every form registered with ABM_NEW is still open. */
    ghost predicate Valid()
      reads this
    {
      (forall i :: 0 <= i < |openForms| ==> openForms[i] < nextHandle) &&
      (forall m <- log :: m.code == ABM_NEW ==> m.data.hWnd in openForms)
    }

    /** The main form, open with handle `handle`; nothing sent to the shell yet. */
    constructor (shell: Shell, handle: Handle)
      ensures Valid()
      ensures this.shell == shell && openForms == [handle] && nextHandle == handle + 1 && log == []
    {
      this.shell := shell;
      openForms := [handle];
      nextHandle := handle + 1;
      log := [];
    }

    /** SHAppBarMessage: the shell records the call; ABM_QUERYPOS writes the granted rectangle back. */
    method SHAppBarMessage(code: int, abd: AppBarData) returns (reply: AppBarData)
      modifies this`log
      ensures log == old(log) + [Message(code, abd)]
      ensures reply == if code == ABM_QUERYPOS then abd.(rc := shell.queryPos(abd.rc, abd.uEdge, old(log))) else abd
    {
      reply := if code == ABM_QUERYPOS then abd.(rc := shell.queryPos(abd.rc, abd.uEdge, log)) else abd;
      log := log + [Message(code, abd)];
    }

    /** `new Form()` followed by `Show()`: a new open form with a fresh handle. */
    method ShowNewForm() returns (h: Handle)
      requires Valid()
      modifies this`openForms, this`nextHandle
      ensures Valid()
      ensures h == old(nextHandle) && h !in old(openForms)
      ensures openForms == old(openForms) + [h] && nextHandle == h + 1
    {
      h := nextHandle;
      openForms := openForms + [h];
      nextHandle := nextHandle + 1;
    }

    /**
     * CreateForm: registers a new form for `edge` of `screen` and commits
     * it `amount` pixels thick; an edge outside ABEdge throws after the
     * query, before ABM_SETPOS.
     */
    method CreateForm(screen: Screen, edge: int, amount: Int32) returns (r: Result<(), EdgeError>)
      requires Valid()
      modifies this
      ensures Valid()
      ensures r.Err? <==> !IsEdge(edge)
      ensures openForms == old(openForms) + [old(nextHandle)] && nextHandle == old(nextHandle) + 1
      ensures log == old(log) + FormMessages(shell, old(log), old(nextHandle), screen, edge, amount)
    {
      var abd := NewAppBarData();
      var h := ShowNewForm();
      abd := abd.(hWnd := h);
      abd := abd.(uEdge := edge);
      var area := shell.workArea(screen, log);
      abd := abd.(rc := abd.rc.(left := area.left));
      abd := abd.(rc := abd.rc.(right := area.right));
      abd := abd.(rc := abd.rc.(top := area.top));
      abd := abd.(rc := abd.rc.(bottom := area.bottom));
      assert abd == BarData(h, area, edge);
      abd := SHAppBarMessage(ABM_NEW, abd);
      abd := SHAppBarMessage(ABM_QUERYPOS, abd);
      match Clamp(abd.rc, edge, amount)
      case Err(e) =>
        return Err(e);
      case Ok(rc) =>
        abd := abd.(rc := rc);
        abd := SHAppBarMessage(ABM_SETPOS, abd);
        return Ok(());
    }

    /**
     * CreatePadding: one CreateForm per positive amount of the table,
     * entries in table order, within an entry TOP, BOTTOM, LEFT, RIGHT.
     */
    method CreatePadding(settings: Settings)
      requires Valid()
      modifies this
      ensures Valid()
      ensures var reqs := PaddingRequests(settings.screens);
        log == old(log) + SessionMessages(shell, old(log), old(nextHandle), reqs) &&
        openForms == old(openForms) + Handles(old(nextHandle), |reqs|) &&
        nextHandle == old(nextHandle) + |reqs|
    {
      var table := settings.screens;
      ghost var done: seq<Request> := [];
      var i := 0;
      while i < |table|
        invariant 0 <= i <= |table| && Valid()
        invariant done == PaddingRequests(table[..i])
        invariant InSession(old(log), old(openForms), old(nextHandle), done)
      {
        done := CreateScreenPadding(table[i].screen, table[i].padding, old(log), old(openForms), old(nextHandle), done);
        PaddingRequestsSnoc(table, i);
        i := i + 1;
      }
      assert table[..i] == table;
    }

    /**
     * The state after the calls `done` of a session that began with the
     * log `log0`, the open forms `forms0` and the next handle `h0`.
     */
    ghost predicate InSession(log0: seq<Message>, forms0: seq<Handle>, h0: Handle, done: seq<Request>)
      reads this
    {
      log == log0 + SessionMessages(shell, log0, h0, done) &&
      openForms == forms0 + Handles(h0, |done|) &&
      nextHandle == h0 + |done|
    }

    /**
     * Reset: one ABM_REMOVE per open form, in order, each with the form's
     * handle, and no other message; so every form ever registered with
     * ABM_NEW is removed again. The forms stay open.
     */
    method Reset()
      requires Valid()
      modifies this`log
      ensures Valid()
      ensures log == old(log) + RemoveMessages(openForms)
      ensures forall m <- old(log) :: m.code == ABM_NEW ==>
        Message(ABM_REMOVE, RemoveData(m.data.hWnd)) in log[|old(log)|..]
    {
      var i := 0;
      while i < |openForms|
        invariant 0 <= i <= |openForms|
        invariant log == old(log) + RemoveMessages(openForms[..i])
      {
        assert openForms[..i + 1][..i] == openForms[..i];
        var abd := NewAppBarData();
        abd := abd.(hWnd := openForms[i]);
        var _ := SHAppBarMessage(ABM_REMOVE, abd);
        i := i + 1;
      }
      assert openForms[..i] == openForms;
      var removes := RemoveMessages(openForms);
      assert log[|old(log)|..] == removes;
      forall m <- old(log) | m.code == ABM_NEW
        ensures Message(ABM_REMOVE, RemoveData(m.data.hWnd)) in removes
      {
        var k :| 0 <= k < |openForms| && openForms[k] == m.data.hWnd;
        assert removes[k] == Message(ABM_REMOVE, RemoveData(m.data.hWnd));
      }
    }

    /** The body of CreatePadding's loop: the calls for one table entry, TOP, BOTTOM, LEFT, RIGHT. */
    method CreateScreenPadding(screen: Screen, padding: ScreenPadding,
                               ghost log0: seq<Message>, ghost forms0: seq<Handle>, ghost h0: Handle, ghost done: seq<Request>)
      returns (ghost done': seq<Request>)
      requires Valid() && InSession(log0, forms0, h0, done)
      modifies this
      ensures Valid() && InSession(log0, forms0, h0, done')
      ensures done' == done + EdgeRequest(screen, ABE_TOP, padding.top) + EdgeRequest(screen, ABE_BOTTOM, padding.bottom)
                            + EdgeRequest(screen, ABE_LEFT, padding.left) + EdgeRequest(screen, ABE_RIGHT, padding.right)
    {
      done' := done;
      if padding.top > 0 {
        done' := CreateFormFor(screen, ABE_TOP, padding.top, log0, forms0, h0, done');
      }
      ghost var top := done';
      if padding.bottom > 0 {
        done' := CreateFormFor(screen, ABE_BOTTOM, padding.bottom, log0, forms0, h0, done');
      }
      ghost var bottom := done';
      if padding.left > 0 {
        done' := CreateFormFor(screen, ABE_LEFT, padding.left, log0, forms0, h0, done');
      }
      ghost var left := done';
      if padding.right > 0 {
        done' := CreateFormFor(screen, ABE_RIGHT, padding.right, log0, forms0, h0, done');
      }
      assert top == done + EdgeRequest(screen, ABE_TOP, padding.top);
      assert bottom == top + EdgeRequest(screen, ABE_BOTTOM, padding.bottom);
      assert left == bottom + EdgeRequest(screen, ABE_LEFT, padding.left);
      assert done' == left + EdgeRequest(screen, ABE_RIGHT, padding.right);
    }

    /** One CreateForm call of CreatePadding, with the calls made so far as ghost state. */
    method CreateFormFor(screen: Screen, edge: int, amount: Int32,
                         ghost log0: seq<Message>, ghost forms0: seq<Handle>, ghost h0: Handle, ghost done: seq<Request>)
      returns (ghost done': seq<Request>)
      requires Valid() && IsEdge(edge) && InSession(log0, forms0, h0, done)
      modifies this
      ensures Valid() && done' == done + [Request(screen, edge, amount)] && InSession(log0, forms0, h0, done')
    {
      SessionMessagesSnoc(shell, log0, h0, done, Request(screen, edge, amount));
      var _ := CreateForm(screen, edge, amount);
      done' := done + [Request(screen, edge, amount)];
    }
  }
}

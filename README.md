# Aerial: screen-edge reservation, modelled in Dafny

Aerial reserves strips of screen space on the edges of one or more monitors
through the Windows shell's app-bar interface (`SHAppBarMessage`), so that
other windows' working area avoids those strips. This project models the
logic of `Aerial/ProgramForm.cs`:

- **Settings** (`padding.dfy`, `argpattern.dfy`): `Settings.ExtractArgs`
  turns the command-line arguments into a table of (screen, padding) pairs.
  For each enumerated screen all four amounts start at 0. Each argument is
  searched for the leftmost match of `-(SEL)([tlbra])=(\d+)`, where SEL is
  `p|a|1` for the primary screen and `s|a|N` for a secondary screen whose
  0-based enumeration index is N. A match overwrites the named edge (`a`:
  all four), so the last match wins. The primary screen's entry is inserted at
  the front of the table and every other entry is appended. The regular
  expression is a hand-written leftmost-match scanner. `int.Parse`'s overflow
  is an `Err`.
- **The app-bar protocol** (`appbar.dfy`, `native.dfy`): `CreateForm` opens a
  new form and sends `ABM_NEW` and then `ABM_QUERYPOS` with the screen's
  working area as `Screen.WorkingArea` reads it at that moment, which earlier
  reservations have already shrunk. It pins the shell's answer to `amount` pixels on the chosen
  edge (`Clamp`, in C# unchecked 32-bit arithmetic) and commits it with
  `ABM_SETPOS`. An edge code outside `ABEdge` throws after the query and before
  `ABM_SETPOS`. `CreatePadding` calls `CreateForm` for each positive amount of
  the table: entries in table order, and within an entry TOP, BOTTOM, LEFT,
  RIGHT. `Reset` sends one `ABM_REMOVE` per open form.
- The shell is a recorder. The class `AppBar.ProgramForm` keeps every
  message it has sent in `log`. The shell (`AppBar.Shell`) is two arbitrary
  functions of the message history: `queryPos`, its answer to
  `ABM_QUERYPOS` for the proposed rectangle and edge, and `workArea`, the
  working area `Screen.WorkingArea` reports for a screen. Every result
  therefore holds for any shell behaviour.
- `scenarios.dfy` works two examples from arguments to messages.

Behaviour of the code worth knowing:
- `Reset` does not destroy forms or forget them. A second `Reset` sends the
  same `ABM_REMOVE` messages again; it is not a no-op.
- The program exits early only when there are no arguments at all. Arguments
  with no recognised token still build a table, of zero amounts, and no
  reservation is made.
- The committed form is not moved onto the committed rectangle. `CreateForm`
  only shows it before registering.

## Model

| member | source | states |
|---|---|---|
| Native.Wrap32 | Aerial/ProgramForm.cs:199-210 | C# unchecked `int` arithmetic yields the Int32 congruent to the exact value modulo 2^32, and the exact value when it fits |
| ArgPattern.NatToString | Aerial/ProgramForm.cs:253 | the interpolated `{index}` is `index.ToString()`: a non-empty digit string, without a leading zero unless it is the single digit, whose decimal value is the index (round trip with DigitsValue) |
| ArgPattern.DigitRun | Aerial/ProgramForm.cs:252-253 | greedy `\d+`: the run taken is all digits and stops at the end or at a non-digit |
| ArgPattern.MatchAt | Aerial/ProgramForm.cs:251-253 | a match at i has the pattern's shape: a dash, one of the screen's selector alternatives, an edge letter from `[tlbra]`, `=`, a maximal non-empty digit run, all inside the argument |
| ArgPattern.MatchAtComplete | Aerial/ProgramForm.cs:251-253 | conversely, wherever such text begins at i for one of the screen's alternatives, the pattern matches at i |
| ArgPattern.FindFrom | Aerial/ProgramForm.cs:257 | the match found is a match and no position before it matches; no match found means no position matches |
| ArgPattern.Find | Aerial/ProgramForm.cs:257-259 | `Regex.Match`: the leftmost match in the whole argument, or none when no position matches |
| Padding.ScreenPaddingFor | Aerial/ProgramForm.cs:247-282 | the inner loop of ExtractArgs computes exactly the left-to-right application of the arguments to four zero amounts, stopping with the overflow error |
| Padding.LastSettingWins | Aerial/ProgramForm.cs:255-282 | each edge ends with the value of the last argument whose match names that edge or `a`, and keeps its starting amount (0) when none does |
| Padding.OverflowIsError | Aerial/ProgramForm.cs:264-279 | ExtractArgs fails for a screen exactly when some argument matching that screen carries a value beyond Int32 (`int.Parse` throws) |
| Padding.NonMatchingIgnored | Aerial/ProgramForm.cs:257-259 | an argument without a match changes nothing, wherever it stands among the others |
| Padding.AmountsNonNegative | Aerial/ProgramForm.cs:247-250 | every parsed amount is at least 0 |
| Padding.ParseAmount | Aerial/ProgramForm.cs:264-279 | `int.Parse` on the digit run: the value when it fits an Int32 (never negative), the overflow error exactly when it does not |
| Padding.Step | Aerial/ProgramForm.cs:257-281 | one argument: an error exactly when its match overflows; otherwise each edge named by the match (or all four for `a`) takes the match's value and every other edge keeps its amount |
| Padding.Arrange | Aerial/ProgramForm.cs:245-299 | the outer loop with `Insert(0, …)` for the primary screen and `Add` otherwise adds exactly one entry per screen |
| Padding.ArrangeSplits | Aerial/ProgramForm.cs:292-296 | the table built on an existing list is the primary entries in reverse enumeration order, then the existing list, then the other entries in enumeration order |
| Padding.EntriesFollowScreens | Aerial/ProgramForm.cs:244-253 | one entry per enumerated screen, in order, each with the padding its own enumeration index selects (the counter counts the primary screen too) |
| Padding.PrimaryFirst | Aerial/ProgramForm.cs:292-299 | from an empty list with one primary screen: one entry per screen, the primary one at index 0 and the secondary ones after it in enumeration order |
| Padding.Settings.ExtractArgs | Aerial/ProgramForm.cs:242-300 | the list afterwards is the table built on the list before, or the first overflow error is returned |
| AppBar.Clamp | Aerial/ProgramForm.cs:197-213 | an error exactly for an edge code outside ABEdge; otherwise only the coordinate opposite the edge changes, and the strip is `amount` thick across the edge (modulo 2^32 when the coordinate wraps) |
| AppBar.FormMessages | Aerial/ProgramForm.cs:184-215 | CreateForm sends NEW then QUERYPOS with the new handle, the edge code and the screen's working area as the shell reports it after every earlier message, then, for a valid edge only, SETPOS with the shell's answer pinned to `amount` pixels |
| AppBar.ScreenRequestsSpec | Aerial/ProgramForm.cs:158-165 | for one entry: a call per positive amount and none otherwise, for that screen and amount, in the order TOP, BOTTOM, LEFT, RIGHT |
| AppBar.OneRequestPerPositiveAmount | Aerial/ProgramForm.cs:156-166 | the number of CreateForm calls equals the number of positive amounts in the table |
| AppBar.RequestsInTableOrder | Aerial/ProgramForm.cs:156 | the calls for earlier entries all precede those for later entries |
| AppBar.SessionMessagesAppend | Aerial/ProgramForm.cs:156-166 | the calls of a longer session send the earlier calls' messages first, and each later call sees all of them |
| AppBar.SessionCallAt | Aerial/ProgramForm.cs:156-166 | the k-th call of a session sends exactly the messages of one CreateForm, given every message the earlier calls sent |
| AppBar.SessionMessagesAt | Aerial/ProgramForm.cs:156-166 | the k-th call sends NEW, QUERYPOS, SETPOS at positions 3k to 3k+2 with handle h+k and its edge, the first two with the screen's working area as re-read after the first k calls' messages, the SETPOS rectangle anchored on the shell's answer to that query and `amount` thick |
| AppBar.RemoveMessages | Aerial/ProgramForm.cs:133-139 | one ABM_REMOVE per open form, in order, carrying that form's handle and nothing else set |
| AppBar.ProgramForm.constructor | Aerial/ProgramForm.cs:72-87 | the main form is open with its handle, no message has been sent, and later forms get fresh handles; Reset sends an ABM_REMOVE for it too |
| AppBar.ProgramForm.ShowNewForm | Aerial/ProgramForm.cs:174-184 | `new Form()` then `Show()`: one more open form, whose handle is fresh (not among the open forms) |
| AppBar.ProgramForm.SHAppBarMessage | Aerial/ProgramForm.cs:56-57 | the shell records each message; only ABM_QUERYPOS writes a rectangle back |
| AppBar.ProgramForm.CreateForm | Aerial/ProgramForm.cs:169-219 | one new open form; the log grows by exactly FormMessages; the error is raised exactly for an invalid edge code; every registered form stays open |
| AppBar.ProgramForm.CreatePadding | Aerial/ProgramForm.cs:142-167 | the log grows by the session messages of the table's calls in order, and one new form is opened per call |
| AppBar.ProgramForm.Reset | Aerial/ProgramForm.cs:131-140 | the log grows by exactly the REMOVE messages of the open forms, so every form registered with ABM_NEW gets an ABM_REMOVE |
| Scenarios.OneSelectsPrimaryAndSecondOne | Aerial/ProgramForm.cs:251-253 | `-1t=5` sets the top amount of the primary screen and of the secondary screen at index 1 alike |
| Scenarios.PrimaryTopForty | Aerial/ProgramForm.cs:197-201 | primary screen (0, 0, 1920, 1080) with `-pt=40` and a shell that grants what it is asked and reports the working area unchanged: SETPOS for (0, 0, 1920, 40) |

## Left out

- Killing an earlier running instance in `OnLoad` (`Aerial/ProgramForm.cs:94-102`). This is operating-system process control whose exceptions are swallowed.
- `Thread.Sleep` and `Application.DoEvents` (`Aerial/ProgramForm.cs:153-154`, `193-195`, `216-218`). The model is sequential, so handlers that `DoEvents` re-enters are not modelled. The tray's "quit" (installed before `CreatePadding` runs) leads through `OnClosing` to `Reset`; during setup that can put ABM_REMOVE messages between one form's QUERYPOS and SETPOS, and later forms still send NEW and SETPOS afterwards.
- The shell's real `ABM_QUERYPOS` adjustment and its available-area bookkeeping. The shell is a foreign component, so its answer (`queryPos`) and the working area it reports (`workArea`) are arbitrary functions of the messages it has received. For the same reason the model does not state how the working area shrinks after `ABM_SETPOS` and grows back after `ABM_REMOVE`.
- The rectangle the shell may write back on `ABM_SETPOS`, and the return values of all messages. The program never reads either.
- Tray icon and menu, form construction and styling, `Main`'s bootstrap and DPI settings, and the `FormClosing`/`Load` event wiring. These are UI glue.
- Closing `OwnedForms` at the start of `CreatePadding`. No form created here is owned, and its exceptions are swallowed.
- `Screen.AllScreens` is a parameter (identifier, primary flag, working area at enumeration). The enumerated working area is kept in `Screen`, but `CreateForm` asks the shell's `workArea` for the current one. Window handles come from a counter, so they are fresh and increasing; real handles are only distinct.
- `Marshal.SizeOf(APPBARDATA)` is the constant 48 of a 64-bit process; a 32-bit process has 36.
- ArgPattern.DigitRun: `\d` is taken as the ASCII digits. .NET's `\d` also matches other Unicode decimal digits, which `int.Parse` then rejects with an exception that the model does not have.
- Padding.Settings.ExtractArgs: after an overflow error the contract does not say which entries the earlier screens left in the list. The program ends with the exception anyway.

# Krang browser core, modelled in Dafny

Krang is a CMS whose browser side is one utility file, `krang.js`. It comes
in two snapshots: the current `krang/htdocs/js/krang.js` and an older
`htdocs/js/krang.js`. Under the DOM and Prototype calls sits sequential,
single-threaded logic. This project states that logic in Dafny and proves
what it promises.

## What is modelled

The DOM, the cookie jar, timers, animations and the network are explicit
state. The browser's actions are event methods that the environment calls.

- **Animations and timers.** Each `Effect.*` animation and each
  `setTimeout` the code starts becomes an entry of a `pending` or `timers`
  list. The environment fires entry `i` through an event method
  (`OnEffectFinish`, `OnTimer`, ...).
- **Requests.** A request that has been sent is an entry of `inFlight`. The
  environment delivers its success, its failure or its completion.
- **The trace.** What a page does is appended to a `trace` of actions:
  indicator shown or hidden, request sent, target loaded, hooks run, user
  callback called, error shown, scrolled to top.
- **Values the page only reads.** The user's answer to the "discard your
  unsaved changes?" question is a `confirmed` parameter. The time read by
  `new Date().valueOf()` is a `now` parameter, and the user's
  `message_timeout` preference is a constant of the message board.
- **Foreign functions.** `encodeURIComponent`/`escape` and their inverses
  are function parameters (`encode`, `decode`). So are Prototype's
  `String#toQueryParams` and `Form.serialize`, and the page's charset.

Modules, one per component:

- `Hooks`: `run_code`, `onload`/`onunload`, `unload`.
- `Cookies`: `Cookie.get` / `get_cookie` on the text of `document.cookie`.
  A jar of cookies stands for the browser's cookie store.
- `WindowId`: `Krang.Window` (name parsing, the pool cookie, `get_id`,
  `pass_id`, `init`, `log_out`).
- `Params`: `_encode_params` and the `ajax=1` flag.
- `Base64` and `Base64Properties`: `Krang.Base64`.
- `Slug`: `title_to_slug`.
- `ClassNames`: `class_suffix`.
- `Help`: `Krang.Help`.
- `TimeChooser`: the time-chooser widget and `update_time_chooser`, with the option values of its three drop-downs.
- `MessageBoard` and `LegacyMessageBoard`: `Krang.Messages` in the current
  and old snapshots.
- `Forms`: `Form.set`, the AJAX-or-plain decision and the submit URL.
- `Blinds`: the `BlindUpDown` lock table, keyed by element `id`, beside the visibility of the elements themselves.
- `Panels`: `Krang.Navigation` in both snapshots.
- `Ajax`: request preparation, the success, failure and completion handlers
  and their ordering. Both snapshots share it.
- `KrangPage` and `LegacyKrangPage`: the page object of each snapshot. It
  ties the above together: `load`, `unload`, `Nav.edit_mode`,
  `Nav.goto_url`, `Form.submit` / `form_submit`, `log_out`.

Each stateful part is a class whose methods are proved to perform a
transition stated as a function on values. The properties are lemmas about
those functions.

### Where the code and its documentation differ

The model follows the code in each case.

- **Hook order.** `run_code` and the old `load` drain their hook arrays with
  `pop`. Hooks therefore run last-registered-first, although the comment
  says "in the order given" (`Hooks.LaterRunsFirst`).
- **Message rendering order.** The drain loop also pops, so the message
  added last is rendered first (`MessageBoard.RenderConcat`).
- **The message lock.** `_locked` means "an animation owns this box", not
  "this box is visible". After alerts have slid down they are visible but
  unlocked, so `show('messages')` is no longer held back. The model proves
  only the lock-based yield (`MessageBoard.ShowYieldsToAlerts`), not mutual
  exclusion of the two boxes.
- **The global `el`.** `hide` assigns the global `el` without `var`. A
  quick hide of alerts calls `show('messages')`, which re-points `el`, so
  the final `className` reset hits the messages box
  (`MessageBoard.QuickHideOfAlertsResetsMessages`).
- **Show order in `load`.** The current `load` shows alerts, then
  messages. The old one shows messages, then alerts.
- **Current panel clicks.** A click in the current navigation flips the
  saved record of the panel even while its blind is locked and nothing
  moves (`Panels.CurrentClickWhileLocked`).
- **Restored panels.** Entries restored from the cookie are strings, and
  `indexOf` is strict (see "Left out"). Restored panels are therefore never opened on
  `initialize` (`Panels.RestoredPanelsStayHidden`).
- **Unload.** Only `Krang.Ajax.request` runs `Krang.unload()`;
  `Krang.Ajax.update` does not.
- **Numeric parameters.** `Krang.Base64.encode` of a number yields `''`,
  since a number has no `length`. A numeric parameter is therefore sent
  blank when the charset is not UTF-8 (`Params.NumberSentBlank`).
- **The time chooser.** A mousedown outside the clock hides it without
  disabling the selects again (`TimeChooser.Chooser.ClickElsewhere`).

## Model

| member | source | states |
|---|---|---|
| Hooks.RunCode | krang/htdocs/js/krang.js:29-34 | the array is left empty and the truthy hooks run in pop order, last registered first |
| Hooks.LifoOrderMembers | krang/htdocs/js/krang.js:29-34 | a hook runs exactly when it was registered as a truthy entry |
| Hooks.LifoOrderConcat | krang/htdocs/js/krang.js:29-34 | hooks registered later run before all hooks registered earlier |
| Hooks.LaterRunsFirst | krang/htdocs/js/krang.js:73-79 | of two registered hooks the later runs first, contrary to the "order given" comment |
| Hooks.TruthyMembers | krang/htdocs/js/krang.js:33 | only truthy entries are invoked, and each of them is |
| Hooks.Registry.OnLoad | krang/htdocs/js/krang.js:76-79 | the hook is appended to `onload_code`; `onunload_code` is untouched |
| Hooks.Registry.OnUnload | krang/htdocs/js/krang.js:88-91 | the hook is appended to `onunload_code`; `onload_code` is untouched |
| Hooks.Registry.RunOnload | htdocs/js/krang.js:23-27 | the old `load` drain empties `onload_code` and runs its truthy hooks last-registered-first |
| Hooks.Registry.Unload | krang/htdocs/js/krang.js:92-95 | `onunload_code` is emptied and run last-registered-first; `onload_code` is untouched |
| Cookies.Lookup | krang/htdocs/js/krang.js:233-235 | the jar's value for a name is absent iff no cookie has that name, else one cookie carries it |
| Cookies.Store | krang/htdocs/js/krang.js:233-235 | after `set`, the name reads back the value and every other name reads back what it did before |
| Cookies.Get | krang/htdocs/js/krang.js:211-232 | null iff `name=` occurs nowhere; otherwise the decoded text from after the first `name=` to the next `;` or the end |
| Cookies.GetMatchesInsideLongerName | krang/htdocs/js/krang.js:217 | `get('id')` on `xid=5; id=7` returns `5`: the first `name=` may sit inside a longer name |
| Cookies.GetOldestCookie | htdocs/js/krang.js:59-80 | the first cookie in the string is read back through the decoder |
| Cookies.SetThenGet | krang/htdocs/js/krang.js:211-235 | a value set as the first cookie reads back unchanged when encoding round-trips and adds no `;` |
| Cookies.GetFromJar | krang/htdocs/js/krang.js:211-232 | when no other cookie's text contains `name=`, `get` returns the decoded jar value or null |
| Cookies.StoreKeepsUnambiguous | krang/htdocs/js/krang.js:233-235 | storing a cookie whose text does not contain `other=` keeps reads of `other` unambiguous |
| Cookies.GetSkipsEntry | krang/htdocs/js/krang.js:217 | a leading cookie that does not contain `name=` does not affect `get` |
| Cookies.GetAbsent | krang/htdocs/js/krang.js:220 | a cookie string without `name=` gives null |
| ClassNames.ClassSuffix | krang/htdocs/js/krang.js:655-662 | the suffix is empty iff no class matches `prefix` followed by a non-space run, and it never holds white space |
| ClassNames.FirstMatch | krang/htdocs/js/krang.js:657-658 | the leftmost regex match position, or none when no position matches |
| ClassNames.NonSpaceRun | krang/htdocs/js/krang.js:657 | the `[^\s]+` capture: the longest space-free prefix |
| ClassNames.SuffixOfClassList | krang/htdocs/js/krang.js:655-662 | for a space-separated class list, the suffix is that of the first class starting with the prefix, or `''` |
| ClassNames.SkipFirstClass | krang/htdocs/js/krang.js:657-658 | a first class that does not start with the prefix is skipped |
| ClassNames.TakeFirstClass | krang/htdocs/js/krang.js:657-660 | a first class starting with the prefix gives the rest of that class |
| ClassNames.DocumentedExample | krang/htdocs/js/krang.js:649-653 | `class_suffix` of `foo for_bar` with prefix `for_` is `bar` |
| ClassNames.FirstSuffix | htdocs/js/krang.js:453-460 | the first class extending the prefix decides the suffix; none gives `''` |
| WindowId.TrailingDigits | krang/htdocs/js/krang.js:178 | the `\d+$` match: the longest run of digits ending the name |
| WindowId.IdFromName | krang/htdocs/js/krang.js:177-179 | an id exists iff the name starts with `krang_window_` and ends in a digit; it is the name's trailing digits |
| WindowId.NamedWindowId | krang/htdocs/js/krang.js:138-141 | a window named `krang_window_<n>` gets id `\|n\|` from its name and leaves the pool cookie alone |
| WindowId.PoolDrainedAfterDraw | krang/htdocs/js/krang.js:181-185 | after one unnamed window draws from the pool, the next unnamed window reads `0`, never the same id |
| WindowId.PassIdReadBack | krang/htdocs/js/krang.js:143-148 | `pass_id` in window `krang_window_<n>` stores `n` in `krang_window_id`, where it reads back |
| WindowId.ParseDigits | krang/htdocs/js/krang.js:140 | `parseInt` of a digit string is a non-negative number |
| WindowId.Window.IdFromPool | krang/htdocs/js/krang.js:181-185 | returns the pool cookie as read and resets it to `'0'` |
| WindowId.Window.GetId | krang/htdocs/js/krang.js:138-141 | returns `parseInt` of the name's id, else of the pool's, and draws from the pool only when the name has none |
| WindowId.Window.Adopt | krang/htdocs/js/krang.js:131-132 | the window is named `krang_window_<id>` and `(<id>)` is appended to its title; the jar and the address are untouched |
| WindowId.Window.Init | krang/htdocs/js/krang.js:122-136 | with a truthy id the window is named `krang_window_<id>` and titled `title (<id>)`; otherwise it goes to the logout page unchanged |
| WindowId.Window.PassId | krang/htdocs/js/krang.js:143-148 | draws the id and stores it in `krang_window_id` only when it is truthy |
| WindowId.Window.LogOut | krang/htdocs/js/krang.js:150-155 | outside edit mode or when confirmed, goes to the logout URL with the id and clears the name; otherwise nothing changes |
| Params.EncodeScalar | krang/htdocs/js/krang.js:272-274 | every scalar value becomes Base64 text |
| Params.EncodeItems | krang/htdocs/js/krang.js:267-271 | each element of an array value is encoded, the length kept |
| Params.EncodeValue | krang/htdocs/js/krang.js:273 | computes the encoding of one value |
| Params.EncodeList | krang/htdocs/js/krang.js:268-271 | the in-place loop over an array value encodes each element |
| Params.ParamObject.EncodeParams | krang/htdocs/js/krang.js:260-278 | the map becomes its encoding: unchanged under `utf-8`/`UTF-8`, otherwise every value encoded and `base64=1` added |
| Params.ParamObject.PrepareRequest | krang/htdocs/js/krang.js:325-328 | the map becomes the encoded parameters plus `ajax=1` |
| Params.RequestParamsDecode | krang/htdocs/js/krang.js:417-420 | the keys gain `ajax` (and `base64` off UTF-8), `ajax=1` is never encoded, and every Latin-1 value decodes back to the original |
| Params.ScalarRoundTrip | krang/htdocs/js/krang.js:272-274 | decoding an encoded Latin-1 text value returns it |
| Params.ParamRoundTrip | krang/htdocs/js/krang.js:265-275 | decoding an encoded Latin-1 parameter, scalar or array, returns it |
| Params.NumberSentBlank | krang/htdocs/js/krang.js:273 | off UTF-8 a numeric parameter is sent as `''`, because `encode` reads its missing `length` |
| Base64.Encode | krang/htdocs/js/krang.js:1515-1544 | the `while` loop produces the group-by-group encoding of its input |
| Base64.EncodeAt | krang/htdocs/js/krang.js:1521-1538 | one iteration appends the encoding of the next group of up to three code units |
| Base64.Decode | krang/htdocs/js/krang.js:1545-1574 | the `while` loop produces the group-by-group decoding of the filtered input |
| Base64.DecodeAt | krang/htdocs/js/krang.js:1554-1569 | one iteration appends one to three characters for the next group of four digits |
| Base64.AlphabetIndex | krang/htdocs/js/krang.js:1554 | `chars.indexOf(c)` lies in -1..64 |
| Base64.AlphabetIndexIsIndexOf | krang/htdocs/js/krang.js:1554 | the index is exactly `indexOf` on the 65-character alphabet |
| Base64.Filter | krang/htdocs/js/krang.js:1551 | what the `replace` keeps lies in the alphabet and is no longer than the input |
| Base64Properties.RoundTrip | krang/htdocs/js/krang.js:1515-1574 | for code units below 256, `decode(encode(s)) == s` |
| Base64Properties.EncodedLength | krang/htdocs/js/krang.js:1515-1544 | for code units below 256 the encoding has length 4·⌈n/3⌉ |
| Base64Properties.EncodedPadding | krang/htdocs/js/krang.js:1530-1534 | `=` appears only as the trailing padding, (3 − n mod 3) mod 3 of them |
| Base64Properties.EncodedInAlphabet | krang/htdocs/js/krang.js:1536-1538 | every output character is in the alphabet |
| Base64Properties.DecodeIgnoresNoise | krang/htdocs/js/krang.js:1551 | inserting a non-alphabet character anywhere does not change the decoding |
| Base64Properties.GroupRoundTrip | krang/htdocs/js/krang.js:1524-1567 | one group of up to three code units encodes to four characters that decode back to it |
| Base64Properties.UnpaddedGroup | krang/htdocs/js/krang.js:1558-1569 | `QQ==` decodes to `A`, while an unpadded `QQ` yields `A` and two NUL characters |
| Slug.HighLatin1 | krang/htdocs/js/krang.js:1161-1304 | the high-Latin-1 table covers exactly the code points 0xA0..0xFF among those below 0x100 |
| Slug.KeepLegal | krang/htdocs/js/krang.js:1150 | after removing illegal characters only white space, word characters and `-` remain |
| Slug.TrimTrailingSpace | krang/htdocs/js/krang.js:1152 | the result is a prefix of the input that does not end in white space |
| Slug.SlugAlphabet | krang/htdocs/js/krang.js:1145-1156 | a slug contains no white space and only characters of `[a-z0-9_-]` |
| Slug.SlugIdempotent | krang/htdocs/js/krang.js:1145-1156 | applying `title_to_slug` twice equals applying it once |
| Slug.SlugFixes | krang/htdocs/js/krang.js:1145-1156 | a string of slug characters is its own slug |
| Slug.LeadingSpaceIgnored | krang/htdocs/js/krang.js:1151 | leading white space does not change the slug |
| Slug.TrailingSpaceIgnored | krang/htdocs/js/krang.js:1152 | trailing white space does not change the slug |
| Slug.CollapseSpaceWordOrDash | krang/htdocs/js/krang.js:1153 | after collapsing, no white space is left |
| Slug.SpellExamples | krang/htdocs/js/krang.js:1161-1304 | table entries such as `é`→`e`, `ß`→`ss`, `€`→`euro` and `“`→`''`; characters outside the table pass through |
| Help.HelpUrl | krang/htdocs/js/krang.js:707-714 | the URL starts with `help.pl`, and is exactly `help.pl` iff topic and subtopic are both empty |
| Help.Pick | krang/htdocs/js/krang.js:710-711 | a given non-empty value wins; otherwise the page's current one is used |
| Help.HelpUrlRoundTrip | krang/htdocs/js/krang.js:713-714 | for a topic without `#`, the topic and subtopic can be read back from the URL |
| Help.Topics.Set | krang/htdocs/js/krang.js:702-705 | the current topic and subtopic become the arguments |
| Help.Topics.GoUrl | krang/htdocs/js/krang.js:706-714 | the URL carries the given topic and subtopic, falling back to the current ones |
| Help.Topics.Go | krang/htdocs/js/krang.js:706-717 | `go` opens that URL after passing the window id: the cookie jar is the one `pass_id` leaves, and the window's name, title and location are unchanged |
| Help.Topics.LegacyGoUrl | htdocs/js/krang.js:492-499 | the old URL carries the current topic and subtopic |
| TimeChooser.Upper | krang/htdocs/js/krang.js:1365 | `toUpperCase` maps each ASCII letter and keeps the length |
| TimeChooser.ParseTime | krang/htdocs/js/krang.js:1361-1366 | a match gives non-empty digit hour and minute and an `AM`/`PM` meridiem |
| TimeChooser.ParseTimeComplete | krang/htdocs/js/krang.js:1362 | every string of the form digits`:`digits, spaces, `am`/`pm` in any case matches, with those groups |
| TimeChooser.ParseTimeSound | krang/htdocs/js/krang.js:1362 | every match has exactly that form |
| TimeChooser.FormatTime | krang/htdocs/js/krang.js:1386-1394 | the input is written iff hour, minute and meridiem are all non-empty |
| TimeChooser.FormatThenParse | krang/htdocs/js/krang.js:1386-1394 | a formatted well-formed time parses back to the same hour, minute and meridiem |
| TimeChooser.ParseFormatParse | krang/htdocs/js/krang.js:1362-1394 | whatever parses, once formatted, parses back the same |
| TimeChooser.AssignSelectable | krang/htdocs/js/krang.js:1364-1366 | assigning the drop-downs leaves each one on an option or empty, and changes nothing exactly when the values already are options or empty |
| TimeChooser.LoadSelectable | krang/htdocs/js/krang.js:1360-1369 | loading the input keeps every drop-down on one of its options or empty |
| TimeChooser.LoadThenUpdate | krang/htdocs/js/krang.js:1360-1394 | after loading a parsed input, `update_time_chooser` writes the input back iff all three groups are options of their drop-downs, and the text written parses to what was read |
| TimeChooser.Chooser.ClickTrigger | krang/htdocs/js/krang.js:1344-1373 | the clock toggles; opening enables the selects and loads a parsable input into them, a group without an option emptying its select; closing disables them |
| TimeChooser.Chooser.Fill | krang/htdocs/js/krang.js:1358-1369 | when the input matches, each drop-down takes its parsed group if that is one of its options and reads empty otherwise; a non-matching input leaves them as they were; the input text is unchanged |
| TimeChooser.Chooser.ClickElsewhere | krang/htdocs/js/krang.js:1376-1384 | a mousedown off the clock hides it and leaves the selects as they were |
| TimeChooser.Chooser.UpdateInput | krang/htdocs/js/krang.js:1386-1394 | the input becomes the formatted time when all three selects are set, and is left alone otherwise |
| MessageBoard.RenderConcat | krang/htdocs/js/krang.js:746-749 | the content of a stack renders later messages above earlier ones |
| MessageBoard.RenderSkipsEmpty | krang/htdocs/js/krang.js:748 | an empty message adds nothing to the content |
| MessageBoard.Drain | krang/htdocs/js/krang.js:743-750 | the pop loop builds exactly the rendering of the stack |
| MessageBoard.PopStep | krang/htdocs/js/krang.js:746-749 | each pop appends the popped message's paragraph after what was built from the messages above it, so the content so far is the rendering of the popped top of the stack |
| MessageBoard.ShowYieldsToAlerts | krang/htdocs/js/krang.js:740 | `show('messages')` changes nothing while alerts are locked |
| MessageBoard.ShowDrains | krang/htdocs/js/krang.js:740-755 | an empty stack changes nothing; otherwise the stack is emptied and its rendering becomes the content |
| MessageBoard.ActuallyShowLocking | krang/htdocs/js/krang.js:794-819 | an unlocked box is locked and a slide-down starts; a locked one schedules a retry only while fewer than 7 tries were made |
| MessageBoard.RetriesEnd | krang/htdocs/js/krang.js:816-817 | the seventh retry finding the box still locked schedules nothing more |
| MessageBoard.FinishUnlocks | krang/htdocs/js/krang.js:826-829 | `hide`'s finish callback always clears the box's lock |
| MessageBoard.AutoHideNeedsMarker | krang/htdocs/js/krang.js:774-783 | the auto-hide timer hides messages only if its `unique_` marker is still there; otherwise it does nothing |
| MessageBoard.HideClearsMarkers | krang/htdocs/js/krang.js:850 | hiding a visible box resets its class name, removing every marker |
| MessageBoard.QuickHideOfAlertsResetsMessages | krang/htdocs/js/krang.js:822-851 | a quick hide of visible alerts with queued messages leaves the global `el` on messages, whose markers are cleared, while the alerts keep theirs |
| MessageBoard.HideKeepsText | krang/htdocs/js/krang.js:822-857 | hiding never changes a box's stack or content |
| MessageBoard.MessagesKeepAlerts | krang/htdocs/js/krang.js:732-857 | showing, hiding and finishing messages never touch the alerts box |
| MessageBoard.EventsValid | krang/htdocs/js/krang.js:723-857 | every event keeps `Valid`: each pending retry timer carries a count between 1 and 7, and only slide-downs and retries of `messages` arm the auto-hide timer |
| MessageBoard.ShowValid | krang/htdocs/js/krang.js:732-820 | `show` keeps `Valid` (retry counts in 1..7, auto-hide only for `messages`) |
| MessageBoard.HideValid | krang/htdocs/js/krang.js:822-857 | `hide` keeps `Valid` (retry counts in 1..7, auto-hide only for `messages`) |
| MessageBoard.Center.constructor | krang/htdocs/js/krang.js:724-726 | both boxes start empty, unlocked and hidden, with no pending work |
| MessageBoard.Center.AddMessage | krang/htdocs/js/krang.js:727-731 | the message is pushed onto the level's stack |
| MessageBoard.Center.ShowLevel | krang/htdocs/js/krang.js:732-820 | the board performs the `show` transition |
| MessageBoard.Center.ActuallyShowLevel | krang/htdocs/js/krang.js:794-819 | the board performs `_actually_show` |
| MessageBoard.Center.HideLevel | krang/htdocs/js/krang.js:822-857 | the board performs the `hide` transition, instant or animated |
| MessageBoard.Center.FinishCallback | krang/htdocs/js/krang.js:825-828 | the lock is cleared, and finishing alerts shows messages |
| MessageBoard.Center.OnEffectStart | krang/htdocs/js/krang.js:804-807 | a slide-down starting makes its box visible |
| MessageBoard.SlideDownFinishVisibility | krang/htdocs/js/krang.js:757-782 | the end of a started slide-down leaves its box's visibility as it finds it, so a slide-up that ended in between keeps it hidden; an unstarted one shows it; either way the box is unlocked |
| MessageBoard.Center.OnEffectFinish | krang/htdocs/js/krang.js:757-846 | the end of a slide-down keeps the box's visibility (showing it only if it never started) and runs `close_message_callback`; the end of a slide-up hides the box and runs `finish_callback` |
| MessageBoard.Center.OnTimer | krang/htdocs/js/krang.js:776-781 | a retry calls `_actually_show` again; an auto-hide hides messages if its marker survives |
| LegacyMessageBoard.ShowDrains | htdocs/js/krang.js:512-531 | an empty stack changes nothing; otherwise it is emptied, rendered in reverse add order and a slide-down starts, the other box untouched |
| LegacyMessageBoard.ShowTwo | htdocs/js/krang.js:520-523 | two queued messages render second first |
| LegacyMessageBoard.HideResetsMessages | htdocs/js/krang.js:565-571 | hiding an invisible box does nothing; hiding a visible one slides it up and clears the messages box's markers, even when hiding alerts |
| LegacyMessageBoard.EffectStartShows | htdocs/js/krang.js:528-531 | the first frame of a slide-down shows its box and marks the effect started; the other box, the stack and the content are untouched |
| LegacyMessageBoard.HideDuringSlideDown | htdocs/js/krang.js:528-571 | once the slide-down of a `show` has started the box counts as visible, so a `hide` slides it up while it is still sliding down and clears the messages box's markers |
| LegacyMessageBoard.SlideDownFinishVisibility | htdocs/js/krang.js:528-558 | the end of a started slide-down leaves its box's visibility as it was; an unstarted one shows the box |
| LegacyMessageBoard.OverlapEndsHidden | htdocs/js/krang.js:528-569 | a slide-up that ends before an overlapping, already started slide-down leaves the box hidden after both end |
| LegacyMessageBoard.AutoHideNeedsMarker | htdocs/js/krang.js:549-556 | an auto-hide timer whose marker is gone does nothing |
| LegacyMessageBoard.LegacyCenter.AddMessage | htdocs/js/krang.js:507-511 | the message is pushed onto the level's stack |
| LegacyMessageBoard.LegacyCenter.ShowLevel | htdocs/js/krang.js:512-563 | the page performs the old `show` |
| LegacyMessageBoard.LegacyCenter.HideLevel | htdocs/js/krang.js:565-571 | the page performs the old `hide` |
| LegacyMessageBoard.LegacyCenter.OnEffectStart | htdocs/js/krang.js:528-531 | the page performs the first frame of a slide-down: the box becomes visible |
| LegacyMessageBoard.LegacyCenter.OnEffectFinish | htdocs/js/krang.js:528-569 | the end of a slide-down keeps its box's visibility (showing it only if it never started) and, for messages with a positive timeout, marks the box and arms the auto-hide timer; the end of a slide-up hides its box |
| LegacyMessageBoard.LegacyCenter.OnTimer | htdocs/js/krang.js:550-556 | the auto-hide timer hides messages only if its marker survives |
| Forms.HasClassOfList | krang/htdocs/js/krang.js:546 | `hasClassName` on a class list holds iff the class is one of its entries |
| Forms.DecideAjax | krang/htdocs/js/krang.js:545-553 | AJAX is used iff the form lacks `non_ajax` and no `file` input has a value |
| Forms.StripQuery | krang/htdocs/js/krang.js:561-563 | without `?` the URL is kept; on one line the result is the prefix before the first `?` |
| Forms.SubmitUrl | krang/htdocs/js/krang.js:557-564 | a non-empty `action` is the URL; otherwise the document URL with the query removed |
| Forms.StripQueryIdempotent | krang/htdocs/js/krang.js:563 | stripping the query twice is stripping it once |
| Forms.CurrentRouteOfClassList | krang/htdocs/js/krang.js:534-574 | new window iff asked; otherwise AJAX iff no `non_ajax` class and no chosen file, carrying the submit URL, target and `to_top` |
| Forms.LegacyRouteOfClassList | htdocs/js/krang.js:290-310 | AJAX iff not a new window and no `non_ajax`; target `options.target`, else the `for_` suffix; indicator the `show_` suffix |
| Forms.FileInputsChangedRoute | krang/htdocs/js/krang.js:548-553 | a chosen file makes the current snapshot submit plainly where the old one used AJAX |
| Forms.FieldIndex | krang/htdocs/js/krang.js:518 | `form.elements[key]` is the first control of that name, or none |
| Forms.AssignOk | krang/htdocs/js/krang.js:516-521 | `set` completes iff every input names an existing control |
| Forms.AssignReadBack | krang/htdocs/js/krang.js:516-521 | after `set`, each named control holds its input's value |
| Forms.AssignKeepsOthers | krang/htdocs/js/krang.js:516-521 | controls no input names are left unchanged |
| Forms.Form.Set | krang/htdocs/js/krang.js:510-523 | the fields become those `set` assigns, stopping at the first missing control |
| Forms.Form.Submit | krang/htdocs/js/krang.js:573 | a plain submission goes to the form's target |
| Forms.Form.SubmitInNewWindow | krang/htdocs/js/krang.js:534-541 | the form is submitted into `_blank` and its target is afterwards what it was |
| Blinds.ToggleWhileLocked | krang/htdocs/js/krang.js:1467-1501 | a click on an element whose `id` is locked changes nothing |
| Blinds.ToggleStarts | krang/htdocs/js/krang.js:1471-1500 | an element whose `id` is unlocked locks that `id` and starts one effect, hiding the element if it is visible and showing it otherwise; no other element's visibility changes |
| Blinds.ToggleValid | krang/htdocs/js/krang.js:1467-1501 | every running effect holds its element's lock, and no element runs two |
| Blinds.FinishUnlocks | krang/htdocs/js/krang.js:1479-1483 | the end of an effect unlocks its element, and nothing is left running on it |
| Blinds.DoubleClick | krang/htdocs/js/krang.js:1467-1501 | two quick clicks, on one element or on two elements sharing an `id`, start a single effect |
| Blinds.Widget.BlindUpDown | krang/htdocs/js/krang.js:1467-1501 | the lock table performs the toggle: the element's own visibility picks the direction and its `id` the lock |
| Blinds.Widget.OnFinish | krang/htdocs/js/krang.js:1479-1497 | the effect's `afterFinish` unlocks the element and runs the user's callback |
| Panels.SplitComma | krang/htdocs/js/krang.js:1125 | `split(',')` never returns an empty list |
| Panels.FromCookie | krang/htdocs/js/krang.js:1120-1131 | a non-empty cookie gives its parts as strings; otherwise panel 0 |
| Panels.IndexOfEntry | krang/htdocs/js/krang.js:1132-1134 | strict `indexOf`: -1 iff absent, else the first position |
| Panels.AddedSpec | krang/htdocs/js/krang.js:1112-1119 | adding puts the position in, never twice, and keeps everything else |
| Panels.RemovedCount | krang/htdocs/js/krang.js:1103-1111 | removing deletes one occurrence when there is one |
| Panels.RemovedNoDuplicates | krang/htdocs/js/krang.js:1103-1111 | in a list without duplicates, the position is gone after removal |
| Panels.AddThenRemove | krang/htdocs/js/krang.js:1103-1119 | adding an absent position and removing it restores the list |
| Panels.SplitJoin | krang/htdocs/js/krang.js:1099-1125 | `split(',')` undoes `join(',')` for comma-free texts |
| Panels.RestoreSaved | krang/htdocs/js/krang.js:1099-1131 | saved positions come back from the cookie as their decimal strings |
| Panels.RestoredNeverMatch | krang/htdocs/js/krang.js:1076 | no numeric position is found among restored entries |
| Panels.ShownSpec | krang/htdocs/js/krang.js:1069-1087 | after `initialize`, a panel is shown exactly when its position is listed as a number |
| Panels.RestoredPanelsStayHidden | krang/htdocs/js/krang.js:1059-1088 | with a non-empty cookie no panel is shown on `initialize` |
| Panels.ShowListed | krang/htdocs/js/krang.js:1069-1087 | the loop over the panels shows exactly the listed ones |
| Panels.Navigation.constructor | krang/htdocs/js/krang.js:1059-1088 | restores the list from the cookie and shows the contents element of each listed panel, hiding the others; visibility is per element, not per `id` |
| Panels.Navigation.SaveOpened | krang/htdocs/js/krang.js:1099-1102 | the list is stored in the cookie joined with `,` and kept |
| Panels.Navigation.RemoveOpened | krang/htdocs/js/krang.js:1103-1111 | the first occurrence is spliced out and the list saved |
| Panels.Navigation.AddOpened | krang/htdocs/js/krang.js:1112-1119 | the position is pushed unless present and the list saved |
| Panels.Navigation.Click | krang/htdocs/js/krang.js:1089-1098 | the blind of the panel's contents toggles under the lock of its `id`, and the record flips by `is_panel_open`, whatever the lock |
| Panels.Navigation.OnFinish | krang/htdocs/js/krang.js:1479-1483 | the end of a blind effect unlocks it and leaves the list alone |
| Panels.CurrentClickWhileLocked | krang/htdocs/js/krang.js:1089-1098 | a click while the `id` of the panel's contents is locked, by its own animation or by another element with that `id`, moves nothing yet flips the record |
| Panels.LegacyClickLock | htdocs/js/krang.js:729-753 | while `action_panels[pos]` is set a click changes nothing; otherwise it locks and the record follows the move |
| Panels.LegacyNavigation.constructor | htdocs/js/krang.js:697-728 | restores the list from the cookie, shows listed panels, no locks |
| Panels.LegacyNavigation.SaveOpened | htdocs/js/krang.js:754-757 | the list is stored in the cookie and kept |
| Panels.LegacyNavigation.Click | htdocs/js/krang.js:729-753 | performs the old click, saving only when it animates |
| Panels.LegacyNavigation.OnFinish | htdocs/js/krang.js:737 | the `afterFinish` clears `action_panels[pos]` |
| Panels.Positions | htdocs/js/krang.js:712-726 | the panels' positions are 0 to count−1, all distinct |
| Ajax.TargetOf | krang/htdocs/js/krang.js:423-424 | a null or empty target becomes `C`; any other is kept |
| Ajax.ToTop | krang/htdocs/js/krang.js:411 | `to_top` is false exactly when passed false |
| Ajax.IndicatorId | krang/htdocs/js/krang.js:585-588 | a null or empty indicator becomes `indicator` |
| Ajax.UpdateDefaults | krang/htdocs/js/krang.js:403-475 | an update shows its indicator and sends one request to the target or `C`, scrolling unless `to_top` is false |
| Ajax.SuccessRefreshesNavOnce | krang/htdocs/js/krang.js:433-448 | success leaves edit mode and sends exactly one `nav.pl`/`S`/`to_top:false` update iff `krang_update_nav` |
| Ajax.CompletionOrder | krang/htdocs/js/krang.js:450-461 | completion runs `load(target)`, then `onComplete`, then `hide_indicator`; a plain request hides first |
| KrangPage.LoadTrace | krang/htdocs/js/krang.js:36-41 | `load` applies the behaviours to the target, then runs the onload hooks |
| KrangPage.LastQuestion | krang/htdocs/js/krang.js:681 | the greedy `(.*)\?` ends at the last `?`, or there is none |
| KrangPage.SplitQuery | krang/htdocs/js/krang.js:681 | no match iff there is no `?`; otherwise the two groups rejoin to the URL and the query has no `?` |
| KrangPage.Goto | krang/htdocs/js/krang.js:676-693 | declining in edit mode changes nothing; proceeding clears the flag and sends one request in AJAX mode; an AJAX URL without `?` throws |
| KrangPage.GotoAjaxSends | krang/htdocs/js/krang.js:680-685 | AJAX navigation updates `C`, scrolling, with the URL before the last `?` and the query as parameters |
| KrangPage.OptionsOf | krang/htdocs/js/krang.js:531 | no options means no new window, no target and the default scrolling |
| KrangPage.SetInputs | krang/htdocs/js/krang.js:526 | without inputs nothing is set |
| KrangPage.Submitted | krang/htdocs/js/krang.js:534-573 | the form is submitted once unless it goes through AJAX |
| KrangPage.SubmissionSendsOnce | krang/htdocs/js/krang.js:534-574 | a submission sends one request or submits the form once; in place it first shows the indicator |
| KrangPage.Page.EditMode | krang/htdocs/js/krang.js:670-675 | the flag is set unless `false` is passed |
| KrangPage.Page.ShowIndicator | krang/htdocs/js/krang.js:585-594 | the indicator is shown when its element exists |
| KrangPage.Page.HideIndicator | krang/htdocs/js/krang.js:600-609 | the indicator is hidden |
| KrangPage.Page.Load | krang/htdocs/js/krang.js:36-46 | the target is loaded, onload hooks drained, then alerts and messages shown |
| KrangPage.Page.Unload | krang/htdocs/js/krang.js:92-95 | the onunload hooks are drained last-registered-first |
| KrangPage.Page.Request | krang/htdocs/js/krang.js:314-361 | shows the indicator, prepares the parameters, runs `unload`, then sends |
| KrangPage.Page.Update | krang/htdocs/js/krang.js:403-475 | shows the indicator and sends the prepared parameters with the target and scrolling defaults, without `unload` |
| KrangPage.Page.OnSuccess | krang/htdocs/js/krang.js:433-448 | the page performs the success handler |
| KrangPage.Page.OnFailure | krang/htdocs/js/krang.js:463-472 | the user's `onFailure`, then the error dialog |
| KrangPage.Page.OnComplete | krang/htdocs/js/krang.js:450-461 | the request leaves the network and its completion work is deferred 12 ms |
| KrangPage.Page.OnTimer | krang/htdocs/js/krang.js:440-461 | a deferred `onSuccess` calls back; a deferred completion of an update loads the target and shows messages |
| KrangPage.Page.GotoUrl | krang/htdocs/js/krang.js:676-693 | passes the id first, then navigates as `Goto` says, moving the window only for a plain link |
| KrangPage.Page.FormSubmit | krang/htdocs/js/krang.js:524-576 | sets the inputs (a missing control aborts), passes the id, then submits in a new window or in place |
| KrangPage.Page.SubmitInPlace | krang/htdocs/js/krang.js:543-574 | shows the indicator, then sends the serialized form by AJAX or submits it plainly |
| KrangPage.Page.LogOut | krang/htdocs/js/krang.js:150-155 | unless in edit mode and declined, the window goes to the logout page with its id, its name is cleared and the jar is the one `get_id` leaves (the pool reset to `0` when the name holds no id); declining changes nothing |
| LegacyKrangPage.SentParams | htdocs/js/krang.js:143-144 | the old request adds `ajax=1` and keeps every other parameter unencoded |
| LegacyKrangPage.SameParamsUnderUtf8 | htdocs/js/krang.js:229-230 | under UTF-8 the old and current snapshots send the same parameters; otherwise only the current adds `base64` |
| LegacyKrangPage.LegacySubmissionTarget | htdocs/js/krang.js:290-310 | the old AJAX submission targets `options.target`, else the `for_` suffix or `C`, with the `show_` indicator |
| LegacyKrangPage.LegacyPage.EditMode | htdocs/js/krang.js:468-473 | the flag is set unless `false` is passed |
| LegacyKrangPage.LegacyPage.Load | htdocs/js/krang.js:18-32 | the target is loaded, onload hooks drained, then messages and alerts shown |
| LegacyKrangPage.LegacyPage.Request | htdocs/js/krang.js:133-175 | shows the indicator and sends with `ajax=1`, no encoding and no `unload` |
| LegacyKrangPage.LegacyPage.Update | htdocs/js/krang.js:217-282 | shows the indicator and sends with `ajax=1` and the target and scrolling defaults |
| LegacyKrangPage.LegacyPage.OnSuccess | htdocs/js/krang.js:246-256 | leaves edit mode and, for an update, scrolls if asked and defers `onSuccess`; no navigation refresh |
| LegacyKrangPage.LegacyPage.OnFailure | htdocs/js/krang.js:270-279 | the user's `onFailure`, then the error dialog |
| LegacyKrangPage.LegacyPage.OnComplete | htdocs/js/krang.js:257-268 | the request leaves the network and its completion work is deferred |
| LegacyKrangPage.LegacyPage.OnTimer | htdocs/js/krang.js:257-268 | the deferred completion of an update loads the target, then calls back, then hides the indicator |
| LegacyKrangPage.LegacyPage.GotoUrl | htdocs/js/krang.js:474-479 | declining in edit mode changes nothing; otherwise the window moves and the flag clears |
| LegacyKrangPage.LegacyPage.FormSubmit | htdocs/js/krang.js:357-379 | sets the inputs, then submits in a new window, plainly for `non_ajax`, or through `ajax_form_submit` |
| LegacyKrangPage.LegacyPage.SubmitInPlace | htdocs/js/krang.js:370-377 | shows the indicator, then submits plainly for `non_ajax` or by AJAX |

## Left out

- DOM and effect libraries: `Behaviour.apply` is recorded only as a `Loaded` action. `scrollTo` is `ScrolledToTop`. The effects keep only what they do to visibility and locks: `SlideDown` and `BlindDown` show their element in their first frame and leave it alone at their end; `SlideUp` and `BlindUp` hide it at their end. Clipping, heights and durations are not modelled.
- Network transport: `Ajax.Request`/`Ajax.Updater` internals, `evalScripts`, response bodies and the `json` argument of callbacks are not modelled. The only part of the JSON header kept is `krang_update_nav`, as a boolean.
- `Krang.Error.show` is the `ErrorShown` action; its dialog is not modelled.
- Real time: delays are events in `pending`/`timers`. The clock is a `now` parameter.
- `encodeURIComponent`, `decodeURIComponent`, `escape` and `unescape` are function parameters. The round-trip lemmas assume them inverse where they say so.
- `json_get`, `my_prefs` and `config` are left out, because they use `eval`. The charset and `message_timeout` they supply are parameters.
- Base64 of characters above U+00FF, and `String.fromCharCode` of surrogate halves, are not modelled. Dafny's `char` excludes surrogates, and the round trip is stated for Latin-1 only.
- Base64.DigitAt: a character outside the alphabet counts as 0, where `indexOf` gives -1. Such a character never reaches it, because the decoder reads only filtered text.
- ClassNames.ClassSuffix: the prefix is matched literally. A prefix holding regular-expression metacharacters is not modelled.
- Help.HelpUrlRoundTrip: stated only for topics without `#`, because such a topic makes the URL ambiguous.
- Hooks: a hook that registers further hooks while the array drains is not modelled. Hooks are opaque numbers.
- `null` and `undefined` are one value (`None`). So `edit_mode(null)`, which clears the flag in the source, is modelled as `edit_mode()`, which sets it.
- Ajax.ToTop: only `false` turns scrolling off. Other values that compare equal to `false` under `==` (`0`, `''`) are not modelled.
- Forms: the form is given as an object, so the lookup by name and the "form does not exist" alert are not modelled.
- Forms.Form.Set: the alert for a missing control is not modelled. The `TypeError` that follows it is an abort.
- Forms.FieldIndex: a name shared by several controls gives the first.
- Forms.SubmitUrl: the `form.action` property is taken to be the `action` attribute.
- The old `non_ajax_submit` hook is treated as `submit`.
- KrangPage.SplitQuery: the split is at the last `?` of the whole address. The source's `(.*)\?(.*)` would stop at a line break; a URL holding a line break is not modelled.
- Forms.StripQuery: promises its prefix property only for one-line URLs, for the same reason.
- TimeChooser.Options: the option values of the three drop-downs come from the page's HTML, so they are a parameter of the chooser.
- Help.Topics.Go: the pop-up window that `Krang.popup` opens is not modelled; the method returns the address it would open.
- Blinds.Widget: an element's `id` attribute is a fixed function `id` of the element. Elements with the same `id`, or with none, share one lock; an `id` changed while an effect runs is not modelled.
- Panels.IndexOfEntry: `Array#indexOf` is taken to be strict (`===`), as the native method and Prototype 1.6 are. Prototype 1.5 installs its own `indexOf`, which compares with `==`; under it a restored `"1"` matches position 1, and Panels.RestoredNeverMatch and Panels.RestoredPanelsStayHidden do not hold. Which Prototype the pages load is not part of this model.
- WindowId.ParseDigits: `parseInt` is read as decimal. An engine that reads a leading `0` as octal is not modelled; window ids carry no leading zero.
- `Krang.Window.log_out_all`, `popup`, `preview`, `preload_img`, `row_checked`, `pager_row_checked`, `check_all`, `Pager`, `Tooltip`, `ElementEditor` and `HideIEControls` are left out as DOM glue.
- `update_progress`, `is_ie_6` and the IE 6 branches are left out, because they use floating point or user-agent sniffing. The model takes the non-IE branches.
- `update_order` is left out: it depends on engine-specific sorting with an inconsistent comparator.
- `date_chooser` is left out, because it only configures a calendar library.
- `document.onunload`, `window.onbeforeunload` and the chained `oldOnUnload` are not modelled. The browser calls them; `Unload` models their work.
- `document.title` is a plain string; the title text beyond the appended id is not modelled.
- `Form.serialize` and `String#toQueryParams` are function parameters of the page.
- Cookie attributes (path, expiry) and the browser's rules for assigning to `document.cookie` are not modelled. A jar holds name/value pairs in order.

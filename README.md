# A verified model of the UI_TikTok video app's interaction logic

This project models the parts of the Android app (Kotlin, Jetpack Compose) that keep state or
compute something, and proves properties of them in Dafny:

- **The gesture-driven video controller** of the `Video` composable (`Componentes.kt`). It has a
  media player with a position, a duration and a playing flag, and six pieces of remembered
  state: the overlay icon, one holding flag per half of the screen, and the displayed playing
  flag, position and duration. Every loop body and every callback is one atomic event:
  - a poll tick;
  - a rewind step and a fast-forward step;
  - press start, long press and press end in either zone;
  - a tap;
  - the icon-hide timer;
  - a slider change.

  The environment decides when each event fires. The 200 ms, 300 ms and 600 ms delays appear
  only as named constants. The `Player` and `VideoController` classes hold the state. Their
  methods are proved equal to pure step functions over `VideoState`. The lemmas are stated
  about those step functions and about whole event traces (`Run`).
- **`ActionIcon`'s count rule**: the count text is shown only when it is present and non-empty.
- **The feed screen (`InicioUI`)**: the like and save toggles with their counters, and the
  comments sheet. The `InicioUI` class is proved against `Step`, and trace lemmas cover any
  number of clicks. Also here: the side bar's icon choice and the navigation host's defaults
  for missing route arguments.
- **The conversation screen (`ConversacionScreen`)**: the send handler, which appends a message
  to a list in place; the reversed display order; and the bubble's side and colour.
- **The route builders (`Rutas`)** and their agreement with the route templates.
- **The profile screen (`PantallaPerfil`)**: its title and back-button rule.

The module `KotlinText` writes out the Kotlin library behaviour these screens depend on:
- `Char.isWhitespace`, which is `Character.isWhitespace || Character.isSpaceChar` on the JVM;
- `isBlank` and `trim`;
- the decimal `Int.toString`.

`Wrappers` holds the `Option` type that stands for Kotlin's nullable types.

Some consequences of how the code is written, which the lemmas state:
- A press sets the zone's holding flag at once, before any long-press threshold. So every tap
  also starts the hold loop, and its first pass seeks before the tap toggles playback. A tap
  in the left half therefore also seeks back one second (`TapGestureAlsoRewinds`).
- The hide timer is keyed on the icon's value. Writing the icon that is already showing does
  not restart the timer (`HoldDoesNotRestartHideTimer`).
- The seeks are clamped on one side only. A rewind is clamped below at 0. A fast-forward is
  clamped above at the player's raw duration, not the polled stand-in of 1. With an unknown
  duration (zero or negative), a fast-forward therefore seeks to a position of at most 0
  (`FastForwardStep`).
- A tap toggles the displayed playing flag, which the poll refreshes from the player. When the
  player has started by itself since the last poll, a tap drives it to the state it is
  already in (`StaleTapKeepsPlayer`, `AutoStartThenDoubleTap`).
- `Video` never releases its player.

## Model

| member | source | states |
|---|---|---|
| Componentes.Mount | Videos/app/src/main/java/com/gmsoftva/videos/componentes/Componentes.kt:49-54 | the remembered state right after composition: no icon, both flags clear, the displayed playing flag copied from the player, position and duration 0 (stated by `MountInRange` and `VideoController.constructor`) |
| Componentes.SetIcon | Videos/app/src/main/java/com/gmsoftva/videos/componentes/Componentes.kt:85 | assigning the icon; the value-keyed hide effect counts a restart only when the value changes (stated by `HoldDoesNotRestartHideTimer`) |
| Componentes.Poll | Videos/app/src/main/java/com/gmsoftva/videos/componentes/Componentes.kt:57-64 | one pass of the polling loop (stated by `PollMirrorsPlayer`) |
| Componentes.HoldStep | Videos/app/src/main/java/com/gmsoftva/videos/componentes/Componentes.kt:67-82 | one pass of a zone's hold loop: nothing while the flag is clear, otherwise a seek to the zone's target and its icon (stated by `RewindStep`, `FastForwardStep`, `HoldStepNeedsHolding`) |
| Componentes.Pressed | Videos/app/src/main/java/com/gmsoftva/videos/componentes/Componentes.kt:112-114 | `onLongPress` and the start of `onPress` (stated by `PressStartsLoop`) |
| Componentes.Released | Videos/app/src/main/java/com/gmsoftva/videos/componentes/Componentes.kt:115-116 | the end of `onPress` after the release (stated by `ReleaseStopsZone`) |
| Componentes.Tapped | Videos/app/src/main/java/com/gmsoftva/videos/componentes/Componentes.kt:118-127 | `onTap` (stated by `TapToggles`, `TapTwiceRestores`, `StaleTapKeepsPlayer`) |
| Componentes.HideIcon | Videos/app/src/main/java/com/gmsoftva/videos/componentes/Componentes.kt:85-90 | the hide effect firing (stated by `HideIconClears`) |
| Componentes.Scrub | Videos/app/src/main/java/com/gmsoftva/videos/componentes/Componentes.kt:178-181 | the slider callback for a value in its range (stated by `ScrubShowsAtOnce`) |
| Componentes.Apply | Videos/app/src/main/java/com/gmsoftva/videos/componentes/Componentes.kt:57-182 | one event of any kind; the displayed duration stays non-negative (lifted to traces by `Run`, `ApplyStaysInRange`) |
| KotlinText.IsWhitespace | Videos/app/src/main/java/com/gmsoftva/videos/pantallas/Conversacion.kt:116 | Kotlin's `Char.isWhitespace` on the JVM: `Character.isWhitespace` or `Character.isSpaceChar`, written out as the code points those accept (used by `Trim`) |
| KotlinText.IsBlank | Videos/app/src/main/java/com/gmsoftva/videos/pantallas/Conversacion.kt:116 | `isBlank()`: every character is whitespace, so the empty string is blank (stated through `Trim` and `Conversacion.Send`) |
| KotlinText.NatToString | Videos/app/src/main/java/com/gmsoftva/videos/MainActivity.kt:159 | the decimal digits of a natural: non-empty, digits only, no leading zero, and read back by `NatToStringReadsBack` |
| Rutas.MatchArg | Videos/app/src/main/java/com/gmsoftva/videos/Rutas.kt:7-8 | a match starts at a `{`, spans at least the two braces and fits in the string, so filling always makes progress (which match is found is stated by `MatchArgFindsFirst`) |
| Rutas.MatchArgFindsFirst | Videos/app/src/main/java/com/gmsoftva/videos/Rutas.kt:7-8 | a match is the first listed argument whose `{name}` placeholder starts the string, with that placeholder's length and the argument's value; there is no match exactly when no listed placeholder starts the string |
| Rutas.Fill | Videos/app/src/main/java/com/gmsoftva/videos/Rutas.kt:7-8 | fills every `{name}` placeholder of a template with its argument and keeps the rest, the reference the builders are proved against (`ConversacionMatchesTemplate`, `PerfilMatchesTemplate`) |
| Pantallas.PantallaPerfil | Videos/app/src/main/java/com/gmsoftva/videos/pantallas/pantallas.kt:42-46 | the profile screen's title and back-button choice (stated by `TitleRule`, `BackButtonRule`, `UnknownTipo`) |
| Conversacion.Type | Videos/app/src/main/java/com/gmsoftva/videos/pantallas/Conversacion.kt:96 | the text field's callback replaces the draft (stated by `RunKeepsConsistent` and `ConversacionScreen.OnValueChange`) |
| Conversacion.Run | Videos/app/src/main/java/com/gmsoftva/videos/pantallas/Conversacion.kt:94-119 | any sequence of typing and send clicks (stated by `RunKeepsConsistent`, `SeededAlwaysFirst`) |
| MainActivity.Click | Videos/app/src/main/java/com/gmsoftva/videos/MainActivity.kt:227-235 | the like and save click lambdas: flip the flag, then move the counter by one in its direction (stated by `ClickFlips`, `ClickTwiceRestores`) |
| MainActivity.Step | Videos/app/src/main/java/com/gmsoftva/videos/MainActivity.kt:186-235 | one feed-screen event: like, comments, save or dismissal (stated by `StepsAreIndependent`) |
| MainActivity.RunInicio | Videos/app/src/main/java/com/gmsoftva/videos/MainActivity.kt:181-236 | any sequence of feed-screen events (stated by `RunKeepsCounts`) |
| MainActivity.RightSideBar | Videos/app/src/main/java/com/gmsoftva/videos/MainActivity.kt:131-175 | the four side-bar icons from top to bottom: profile (navigating to `perfil("Chalito_ms", "ajeno")`), like, comments, save (stated by `SideBarIcons`, `SideBarCounts`) |
| MainActivity.PerfilDestination | Videos/app/src/main/java/com/gmsoftva/videos/MainActivity.kt:69-72 | the profile destination's screen for an argument bundle (stated by `MissingArgumentsDefault`, `MissingTipoIsAjeno`, `PresentArgumentsPassThrough`) |
| MainActivity.ConversacionUsername | Videos/app/src/main/java/com/gmsoftva/videos/MainActivity.kt:77-82 | the username the conversation destination passes on (stated by `MissingArgumentsDefault`, `PresentArgumentsPassThrough`) |
| Componentes.PolledDuration | Videos/app/src/main/java/com/gmsoftva/videos/componentes/Componentes.kt:60 | the published duration is the player's when positive and 1 otherwise, so always at least 1 |
| Componentes.SliderValue | Videos/app/src/main/java/com/gmsoftva/videos/componentes/Componentes.kt:182 | the slider reports values in [0, displayed duration]; an in-range drag is reported unchanged |
| Componentes.RewindStep | Videos/app/src/main/java/com/gmsoftva/videos/componentes/Componentes.kt:67-73 | while the left zone is held, a step seeks to position − 1000, or 0 if that would be negative; it shows ⏪ and changes nothing else |
| Componentes.FastForwardStep | Videos/app/src/main/java/com/gmsoftva/videos/componentes/Componentes.kt:76-82 | while the right zone is held, a step seeks to min(position + 1000, player duration), bounded by the raw duration (at most 0 when the duration is unknown); it shows ⏩ and changes nothing else |
| Componentes.HoldStepNeedsHolding | Videos/app/src/main/java/com/gmsoftva/videos/componentes/Componentes.kt:67-82 | a hold step changes nothing while its zone's flag is clear; otherwise it seeks to its zone's target and shows its zone's icon; it never touches either flag or the player's other fields |
| Componentes.ReleaseStopsZone | Videos/app/src/main/java/com/gmsoftva/videos/componentes/Componentes.kt:113-116 | after a release (the right zone's copy is lines 139-142), the zone's flag is clear and its next step does nothing; the other zone's flag, the player, the icon, the hide timer and the displayed flag, position and duration are unchanged; a second release changes nothing |
| Componentes.PressStartsLoop | Videos/app/src/main/java/com/gmsoftva/videos/componentes/Componentes.kt:112-114 | a press or long press sets only its zone's flag: the player, the icon, the hide timer and the displayed playing flag, position and duration are unchanged, and releasing a zone that was not held undoes it exactly; the next step of that zone seeks |
| Componentes.OnlyPressArms | Videos/app/src/main/java/com/gmsoftva/videos/componentes/Componentes.kt:110-156 | no event except a press or long press of a zone sets that zone's flag |
| Componentes.NoSeekFromReleasedZone | Videos/app/src/main/java/com/gmsoftva/videos/componentes/Componentes.kt:67-82 | once a zone is released and until it is pressed again, any trace ends in the same state as that trace without the zone's hold ticks |
| Componentes.PollMirrorsPlayer | Videos/app/src/main/java/com/gmsoftva/videos/componentes/Componentes.kt:57-64 | a poll makes the displayed position and playing flag equal the player's; the displayed duration is the player's when positive and 1 otherwise; player, icon and flags are unchanged |
| Componentes.TapToggles | Videos/app/src/main/java/com/gmsoftva/videos/componentes/Componentes.kt:118-127 | a tap flips the displayed playing flag and sets the player's the same way (play or pause); it shows ▶️ when now playing and ⏸ otherwise; it does not seek; both holding flags, the displayed duration and the player's position and duration are unchanged, so a tap during a hold does not stop the hold |
| Componentes.TapTwiceRestores | Videos/app/src/main/java/com/gmsoftva/videos/componentes/Componentes.kt:118-127 | two taps with no poll between them restore the displayed playing flag and leave the player playing exactly when that flag says so; when the display agreed with the player before the taps, the player is restored as well |
| Componentes.StaleTapKeepsPlayer | Videos/app/src/main/java/com/gmsoftva/videos/componentes/Componentes.kt:118-127 | when the displayed flag disagrees with the player, a tap leaves the player as it is, and two taps invert the player's own playing flag |
| Componentes.AutoStartThenDoubleTap | Videos/app/src/main/java/com/gmsoftva/videos/componentes/Componentes.kt:45-52 | a player that starts by itself after mounting (its `isPlaying` was captured as false) is paused by two taps before the next poll |
| Componentes.TapZonesAgree | Videos/app/src/main/java/com/gmsoftva/videos/componentes/Componentes.kt:144-153 | a right-zone tap has the same effect as a left-zone tap |
| Componentes.HideIconClears | Videos/app/src/main/java/com/gmsoftva/videos/componentes/Componentes.kt:85-90 | the hide timer clears a showing icon, and does nothing when no icon is showing |
| Componentes.HoldDoesNotRestartHideTimer | Videos/app/src/main/java/com/gmsoftva/videos/componentes/Componentes.kt:67-90 | a hold step that re-shows the icon already showing does not restart the value-keyed hide timer; after the timer clears it, the next step shows the icon again and restarts the timer |
| Componentes.ScrubShowsAtOnce | Videos/app/src/main/java/com/gmsoftva/videos/componentes/Componentes.kt:178-181 | a slider change to v seeks the player to v and sets the displayed position to v in the same step, and changes nothing else: the icon, the hide timer, both flags, the displayed playing flag and duration and the rest of the player are kept; the next poll reports v |
| Componentes.Run | Videos/app/src/main/java/com/gmsoftva/videos/componentes/Componentes.kt:57-182 | over any trace of events, the displayed duration never becomes negative |
| Componentes.MountInRange | Videos/app/src/main/java/com/gmsoftva/videos/componentes/Componentes.kt:49-54 | the initial display (position 0, duration 0) is within the seek bounds |
| Componentes.ApplyStaysInRange | Videos/app/src/main/java/com/gmsoftva/videos/componentes/Componentes.kt:67-182 | each single event (poll, hold step, press, release, tap, hide, slider change) keeps the player position and the displayed duration within the seek bounds |
| Componentes.RunStaysInRange | Videos/app/src/main/java/com/gmsoftva/videos/componentes/Componentes.kt:67-182 | when the player's duration d is known or zero, every trace keeps the player position and the displayed duration in [0, max(d, 1)] |
| Componentes.TapCommutesWithRelease | Videos/app/src/main/java/com/gmsoftva/videos/componentes/Componentes.kt:113-127 | a tap and a release commute: they change disjoint parts of the state |
| Componentes.TapReleaseOrderIrrelevant | Videos/app/src/main/java/com/gmsoftva/videos/componentes/Componentes.kt:113-127 | a press, one loop pass, then tap and release end in the same state in either order |
| Componentes.TapGestureAlsoRewinds | Videos/app/src/main/java/com/gmsoftva/videos/componentes/Componentes.kt:111-127 | a plain left tap (press, one loop pass, release, tap) seeks back one second and then toggles playback |
| Componentes.FastForwardHoldScenario | Videos/app/src/main/java/com/gmsoftva/videos/componentes/Componentes.kt:76-82 | holding the right zone for four ticks of a 10 s video at 0 moves it to 4000 ms |
| Componentes.Player.constructor | Videos/app/src/main/java/com/gmsoftva/videos/componentes/Componentes.kt:38-47 | the player starts in the given position, duration and playing state |
| Componentes.Player.Play | Videos/app/src/main/java/com/gmsoftva/videos/componentes/Componentes.kt:121 | `play()` sets the playing flag and nothing else |
| Componentes.Player.Pause | Videos/app/src/main/java/com/gmsoftva/videos/componentes/Componentes.kt:124 | `pause()` clears the playing flag and nothing else |
| Componentes.Player.SeekTo | Videos/app/src/main/java/com/gmsoftva/videos/componentes/Componentes.kt:69 | `seekTo(ms)` sets the position to ms and nothing else |
| Componentes.VideoController.constructor | Videos/app/src/main/java/com/gmsoftva/videos/componentes/Componentes.kt:49-54 | no icon, both flags clear, displayed playing flag copied from the player, position and duration 0 |
| Componentes.VideoController.SetIconValue | Videos/app/src/main/java/com/gmsoftva/videos/componentes/Componentes.kt:85 | writing the icon restarts the hide effect only when the value changes |
| Componentes.VideoController.PollTick | Videos/app/src/main/java/com/gmsoftva/videos/componentes/Componentes.kt:57-64 | the new state is `Poll` of the old one |
| Componentes.VideoController.RewindTick | Videos/app/src/main/java/com/gmsoftva/videos/componentes/Componentes.kt:67-73 | reports the loop condition, and the new state is the left `HoldStep` of the old one |
| Componentes.VideoController.FastForwardTick | Videos/app/src/main/java/com/gmsoftva/videos/componentes/Componentes.kt:76-82 | reports the loop condition, and the new state is the right `HoldStep` of the old one |
| Componentes.VideoController.OnPress | Videos/app/src/main/java/com/gmsoftva/videos/componentes/Componentes.kt:112-114 | sets the zone's holding flag |
| Componentes.VideoController.OnRelease | Videos/app/src/main/java/com/gmsoftva/videos/componentes/Componentes.kt:115-116 | clears the zone's holding flag |
| Componentes.VideoController.OnTap | Videos/app/src/main/java/com/gmsoftva/videos/componentes/Componentes.kt:118-127 | the new state, player included, is `Tapped` of the old one |
| Componentes.VideoController.HideIconTick | Videos/app/src/main/java/com/gmsoftva/videos/componentes/Componentes.kt:85-90 | the new state is `HideIcon` of the old one |
| Componentes.VideoController.OnSliderValueChange | Videos/app/src/main/java/com/gmsoftva/videos/componentes/Componentes.kt:176-182 | for a value in the slider's range, the new state is `Scrub` of the old one |
| Componentes.CountLabel | Videos/app/src/main/java/com/gmsoftva/videos/componentes/Componentes.kt:207 | the count text is shown iff the count is non-null and non-empty, and then it is shown as given |
| KotlinText.Trim | Videos/app/src/main/java/com/gmsoftva/videos/pantallas/Conversacion.kt:117 | `trim()` gives a contiguous piece of the input with only whitespace around it; it has no whitespace at either end, and it is empty iff the input is blank |
| KotlinText.TrimOfTrimmed | Videos/app/src/main/java/com/gmsoftva/videos/pantallas/Conversacion.kt:117 | trimming text without whitespace at its ends changes nothing |
| KotlinText.TrimIdempotent | Videos/app/src/main/java/com/gmsoftva/videos/pantallas/Conversacion.kt:117 | trimming twice is trimming once |
| KotlinText.IntToString | Videos/app/src/main/java/com/gmsoftva/videos/MainActivity.kt:159 | `toString()` is never empty and starts with '-' iff the number is negative |
| KotlinText.NatToStringReadsBack | Videos/app/src/main/java/com/gmsoftva/videos/MainActivity.kt:159 | the decimal digits of n read back as n |
| KotlinText.IntToStringInjective | Videos/app/src/main/java/com/gmsoftva/videos/MainActivity.kt:171 | different counts are written differently |
| Rutas.Conversacion | Videos/app/src/main/java/com/gmsoftva/videos/Rutas.kt:12 | the route is "conversacion/" followed by exactly the username |
| Rutas.Perfil | Videos/app/src/main/java/com/gmsoftva/videos/Rutas.kt:13 | the route is "perfil/", the username, "/", then the tipo |
| Rutas.ConversacionMatchesTemplate | Videos/app/src/main/java/com/gmsoftva/videos/Rutas.kt:7-12 | filling "{username}" in `CONVERSACION` with u gives `conversacion(u)` |
| Rutas.PerfilMatchesTemplate | Videos/app/src/main/java/com/gmsoftva/videos/Rutas.kt:8-13 | filling "{username}" and "{tipo}" in `PERFIL` with u and t gives `perfil(u, t)`, for all u and t |
| Rutas.ConversacionInjective | Videos/app/src/main/java/com/gmsoftva/videos/Rutas.kt:12 | different usernames give different conversation routes |
| Rutas.PerfilInjective | Videos/app/src/main/java/com/gmsoftva/videos/Rutas.kt:13 | profile routes of usernames without '/' determine username and tipo |
| Rutas.PerfilNotInjective | Videos/app/src/main/java/com/gmsoftva/videos/Rutas.kt:13 | without that condition, two different argument pairs build the same route |
| Rutas.FixedRoutesDistinct | Videos/app/src/main/java/com/gmsoftva/videos/Rutas.kt:4-6 | `INICIO`, `AMIGOS` and `MENSAJES` are pairwise distinct and contain no '/' |
| Rutas.BuiltRoutesAreNotFixed | Videos/app/src/main/java/com/gmsoftva/videos/Rutas.kt:4-13 | no built conversation or profile route equals a fixed route |
| Pantallas.TitleRule | Videos/app/src/main/java/com/gmsoftva/videos/pantallas/pantallas.kt:42 | the title ends with the username; it is "Perfil propio de " + username for "propio" and "Perfil de " + username for any other tipo |
| Pantallas.BackButtonRule | Videos/app/src/main/java/com/gmsoftva/videos/pantallas/pantallas.kt:46 | the back button is shown iff tipo is "ajeno" and a navigation controller was passed |
| Pantallas.PropioHasNoBackButton | Videos/app/src/main/java/com/gmsoftva/videos/pantallas/pantallas.kt:46 | one's own profile never shows the back button |
| Pantallas.UnknownTipo | Videos/app/src/main/java/com/gmsoftva/videos/pantallas/pantallas.kt:42-46 | a tipo other than "propio" or "ajeno" shows "Perfil de " + username and no back button |
| Pantallas.TitleTellsKind | Videos/app/src/main/java/com/gmsoftva/videos/pantallas/pantallas.kt:42 | an own-profile title never equals another kind's title, for any usernames |
| Pantallas.TitleNamesUser | Videos/app/src/main/java/com/gmsoftva/videos/pantallas/pantallas.kt:42 | for a fixed tipo, the title determines the username |
| Conversacion.Send | Videos/app/src/main/java/com/gmsoftva/videos/pantallas/Conversacion.kt:115-119 | a blank draft leaves messages and draft unchanged; otherwise exactly one message `Mensaje(trim(draft), false)` is appended, the earlier ones are kept in order, and the draft becomes "" |
| Conversacion.SentTextIsClean | Videos/app/src/main/java/com/gmsoftva/videos/pantallas/Conversacion.kt:116-117 | an appended message is local, and its text is non-empty with no whitespace at either end |
| Conversacion.InitialConsistent | Videos/app/src/main/java/com/gmsoftva/videos/pantallas/Conversacion.kt:27-36 | the screen starts with the four seeded messages of lines 29-32 (`SEEDED`) and an empty draft, which satisfies the conversation invariant |
| Conversacion.SendKeepsConsistent | Videos/app/src/main/java/com/gmsoftva/videos/pantallas/Conversacion.kt:115-119 | sending keeps the invariant: the seeded messages come first and everything after them was sent by the user |
| Conversacion.RunKeepsConsistent | Videos/app/src/main/java/com/gmsoftva/videos/pantallas/Conversacion.kt:94-119 | any sequence of typing and sending keeps the invariant and never removes or changes an existing message |
| Conversacion.SeededAlwaysFirst | Videos/app/src/main/java/com/gmsoftva/videos/pantallas/Conversacion.kt:27-34 | after anything the user does, the first four messages are the seeded ones, in order |
| Conversacion.Reversed | Videos/app/src/main/java/com/gmsoftva/videos/pantallas/Conversacion.kt:75 | `reversed()` has the same length, and item i is message n − 1 − i |
| Conversacion.SentMessageListedFirst | Videos/app/src/main/java/com/gmsoftva/videos/pantallas/Conversacion.kt:75 | after a send, the new message is the first item handed to the list view |
| Conversacion.BurbujaMensaje | Videos/app/src/main/java/com/gmsoftva/videos/pantallas/Conversacion.kt:135-136 | a bubble is start-aligned iff remote and dark grey iff remote; otherwise it is green (0xFF1DB954) and end-aligned |
| Conversacion.SentMessagesDrawnRight | Videos/app/src/main/java/com/gmsoftva/videos/pantallas/Conversacion.kt:135-136 | every message the user sent is drawn green on the right |
| Conversacion.ConversacionScreen.constructor | Videos/app/src/main/java/com/gmsoftva/videos/pantallas/Conversacion.kt:27-36 | the list holds the seeded messages and the draft is "" |
| Conversacion.ConversacionScreen.OnValueChange | Videos/app/src/main/java/com/gmsoftva/videos/pantallas/Conversacion.kt:96 | typing replaces the draft only |
| Conversacion.ConversacionScreen.OnSendClick | Videos/app/src/main/java/com/gmsoftva/videos/pantallas/Conversacion.kt:115-119 | reports whether the draft was non-blank, and the new state is `Send` of the old one |
| Conversacion.ConversacionScreen.ListItems | Videos/app/src/main/java/com/gmsoftva/videos/pantallas/Conversacion.kt:75 | the list view gets the messages newest first |
| MainActivity.ClickFlips | Videos/app/src/main/java/com/gmsoftva/videos/MainActivity.kt:227-230 | a click flips the flag and moves the counter by +1 if now on and −1 if now off |
| MainActivity.ClickTwiceRestores | Videos/app/src/main/java/com/gmsoftva/videos/MainActivity.kt:227-235 | two clicks restore both the flag and the counter (like and save alike) |
| MainActivity.ClickKeepsTracking | Videos/app/src/main/java/com/gmsoftva/videos/MainActivity.kt:227-230 | if the counter is base + (on ? 1 : 0), it still is after a click |
| MainActivity.ClicksTrack | Videos/app/src/main/java/com/gmsoftva/videos/MainActivity.kt:181-184 | after n clicks from (false, base), the counter is base + (on ? 1 : 0), the flag is on iff n is odd, and the counter stays in [base, base + 1] |
| MainActivity.StepsAreIndependent | Videos/app/src/main/java/com/gmsoftva/videos/MainActivity.kt:227-235 | a like click leaves save and sheet unchanged, and a save click leaves like and sheet unchanged; comments opens the sheet and dismissal closes it |
| MainActivity.RunKeepsCounts | Videos/app/src/main/java/com/gmsoftva/videos/MainActivity.kt:181-236 | after any sequence of clicks: likeCount = 1765 + (isLiked ? 1 : 0) and saveCount = 321 + (isSaved ? 1 : 0) |
| MainActivity.StartCountsConsistent | Videos/app/src/main/java/com/gmsoftva/videos/MainActivity.kt:181-184 | the initial (false, 1765) and (false, 321) satisfy that invariant |
| MainActivity.InicioUI.constructor | Videos/app/src/main/java/com/gmsoftva/videos/MainActivity.kt:181-186 | not liked with 1765, not saved with 321, sheet hidden |
| MainActivity.InicioUI.OnLikeClick | Videos/app/src/main/java/com/gmsoftva/videos/MainActivity.kt:227-230 | the new state is the like `Step`, and the counter invariant is kept |
| MainActivity.InicioUI.OnCommentsClick | Videos/app/src/main/java/com/gmsoftva/videos/MainActivity.kt:231 | opens the sheet and changes nothing else |
| MainActivity.InicioUI.OnSaveClick | Videos/app/src/main/java/com/gmsoftva/videos/MainActivity.kt:232-235 | the new state is the save `Step`, and the counter invariant is kept |
| MainActivity.InicioUI.OnDismissRequest | Videos/app/src/main/java/com/gmsoftva/videos/MainActivity.kt:190 | closes the sheet and changes nothing else |
| MainActivity.SideBarIcons | Videos/app/src/main/java/com/gmsoftva/videos/MainActivity.kt:157-173 | the filled heart is chosen iff liked and the filled bookmark iff saved |
| MainActivity.SideBarCounts | Videos/app/src/main/java/com/gmsoftva/videos/MainActivity.kt:148-173 | the like and save counts are always shown as their decimal text, the comment count shows "4", and the profile icon has no count |
| MainActivity.ShownLikeCountIsCounter | Videos/app/src/main/java/com/gmsoftva/videos/MainActivity.kt:157-161 | after any clicks, the like count shown reads back as likeCount, which is at least 1765 |
| MainActivity.ArgOrDefault | Videos/app/src/main/java/com/gmsoftva/videos/MainActivity.kt:70-71 | a present argument is used as it is; a missing bundle or key gives the default |
| MainActivity.MissingArgumentsDefault | Videos/app/src/main/java/com/gmsoftva/videos/MainActivity.kt:70-78 | missing arguments give username "" and tipo "ajeno", so the profile screen is "Perfil de " with a back button |
| MainActivity.MissingTipoIsAjeno | Videos/app/src/main/java/com/gmsoftva/videos/MainActivity.kt:71-72 | a profile route without tipo shows someone else's profile with a back button |
| MainActivity.PresentArgumentsPassThrough | Videos/app/src/main/java/com/gmsoftva/videos/MainActivity.kt:70-82 | present username and tipo reach the profile and conversation screens unchanged |

## Left out

- Layout, modifiers, fonts, images and the `PlayerView` rendering are not modelled. They have no
  behaviour beyond the rules above. Of the colours, only the bubble colour rule is kept.
- The media engine's internals are not modelled: building, the media item, `prepare`, the repeat
  mode and decoding. The player is a record with position, duration and playing flag.
  `play()` and `pause()` set the flag at once, and `seekTo(ms)` sets the position to exactly
  ms. The engine's own clamping of a seek target is not modelled. Neither is the engine changing
  the player state by itself (the position advancing, the duration becoming known, the start
  of playback that `playWhenReady` requests). The single-event lemmas hold for every player
  state, so they cover any state the engine has reached. The trace lemmas (`Run`,
  `RunStaysInRange`, `NoSeekFromReleasedZone`) have no engine event. They cover engine changes
  only by restarting them from the changed state, and `RunStaysInRange` only for changes that
  keep the position within the bounds.
- Coroutine scheduling, `delay` and `LaunchedEffect` restarts are not modelled as concurrency.
  Each loop body is one atomic event, and the environment may fire events in any order.
  `hideTimerRestarts` records when the value-keyed hide effect would restart, but the model
  does not make the hide event wait 600 ms.
- The slider's `Float`/`Long` conversion is not modelled. A slider value is an integer that the
  slider keeps in [0, displayed duration].
- Kotlin's 64-bit `Long` positions are modelled as unbounded integers. `position + 1000` can
  wrap only within a second of `Long.MAX_VALUE`, which no media position reaches. The `Int`
  counters are proved to stay within one of their start value, so they cannot wrap.
- Releasing the player on unmount is not modelled, because `Video` in `Componentes.kt` never
  releases its player. The root-level `VideoComponentes.kt` and `TikTokUI.kt` do, and they
  are not part of this model.
- The navigation library (`navigate`, `popUpTo`, `launchSingleTop`, `popBackStack`), matching a
  concrete route against a template, the `BottomBar` wiring and `AppScreen`'s `NavHost`
  declarations are foreign calls. The model starts from the argument bundle that navigation
  delivers. The profile icon's route `perfil("Chalito_ms", "ajeno")` is kept as the side bar
  item's action.
- Kotlin strings are UTF-16, but Dafny characters are Unicode scalar values. So the seeded
  message "😂" is one character here and a surrogate pair in Kotlin. None of the modelled
  rules depends on its length.
- `PantallaMensajes.kt`, `Comentarios`, `PantallaAgregarAmigos`, `BottomNavIcon`, the unused
  `MessageData` class and the theming are static content and are not part of this model.

# yawi — a Dafny model of the active-window inspector

yawi ("Yet Another Window Inspector") reports the window that has focus as a
four-field record — title, class, pid, workspace — on Hyprland, Sway, GNOME
Shell and macOS. This project models the decision and normalisation logic
between the host (environment variables, the OS name, socket bytes, helper
program output, decoded JSON) and that record, for both layouts of the
repository: the packaged one (`pkg/compositor`, `pkg/providers`,
`pkg/window`) and the older flat one (`compositor.go`, `sway.go`,
`hyprland.go`, `gnome-shell.go`, `main.go`).

Everything the program reads from the outside world is an explicit input:

- the environment is a `map<string, string>`; an absent variable reads as
  `""`, as `os.Getenv` does;
- `runtime.GOOS` is a string parameter;
- a socket conversation is a function from the socket path and the request
  to a `Session`: a failure at dial, write or read, or the bytes available to
  each read;
- JSON decoding is a function from the payload to a `Result` of the decoded
  record;
- the output of `osascript` and `lsappinfo` is a `Result<string>`;
- the D-Bus session bus is a `Bus`: unreachable with an error, or reached,
  with the reply of the Focused Window extension's `Get` method or the call's
  error.

"Checked before connecting" is therefore stated as "the result does not
depend on the socket conversation".

Modules, one per source area:

| module | file | models |
|---|---|---|
| `Wrappers` | wrappers.dfy | `Option` and `Result` |
| `Text` | text.dfy | `strings.ToLower`/`Contains`/`TrimSpace`/`Split`, `fmt` `%d`, `strconv.Atoi` |
| `Environment` | environment.dfy | `os.Getenv` and the variable names |
| `Bytes` | bytes.dfy | bytes, `string(bytes)`, one read into a zeroed buffer, `buffer[:n]` |
| `Compositor` | compositor.dfy | `pkg/compositor`: `Type`, `String`, `Detect` |
| `Window` | window.dfy | `WindowInfo` and its `String` rendering |
| `I3Ipc` | i3ipc.dfy | the i3-ipc frame: magic, LE32 length, LE32 type |
| `SwayTree` | sway_tree.dfy | the Sway layout tree and `findFocusedNode` |
| `Sway` | sway.dfy | `SwayProvider.GetActiveWindow` |
| `Hyprland` | hyprland.dfy | `HyprlandProvider.GetActiveWindow` |
| `Gnome` | gnome.dfy | `GNOMEProvider` and the Focused Window extension query |
| `MacOS` | macos.dfy | `MacOSProvider` and its two queries |
| `Providers` | providers.dfy | `NewProvider`, provider names, dispatch |
| `LegacyCompositor` | legacy_compositor.dfy | `Compositor`, `String`, `DetectCompositor` |
| `LegacySway` | legacy_sway.dfy | `GetSwayActiveWindow` |
| `LegacyHyprland` | legacy_hyprland.dfy | `GetHyprlandActiveWindow` |
| `LegacyGnome` | legacy_gnome.dfy | `GetGNOMEActiveWindow` |
| `LegacyMain` | legacy_main.dfy | `getActiveWindowInfo` and the two normalisers |

The older layout's `WindowInfo` and its `String` method are identical to the
packaged ones and are modelled once, in `Window`. The older clients share
the packaged providers' conversation (`Sway.PayloadBuffer`,
`Hyprland.Query`, `Gnome.Normalize`) and differ only in error wording and in returning raw
records; lemmas prove the two layouts agree.

## Model

| member | source | states |
|---|---|---|
| Environment.Getenv | pkg/compositor/detect.go:44-55 | A set variable reads as its value; an unset one reads as "", so unset and empty are indistinguishable to every caller. |
| Compositor.ToString | pkg/compositor/detect.go:20-33 | The four platforms map to "Hyprland", "Sway", "GNOME", "macOS"; every other value, out-of-range ones included, maps to "Unknown". |
| Compositor.ToStringIdentifiesPlatform | pkg/compositor/detect.go:20-33 | Two tags with the same name other than "Unknown" are the same tag, and it is one of the four platforms. |
| Compositor.Detect | pkg/compositor/detect.go:37-62 | Always one of the five tags. MacOS iff the OS is darwin. Hyprland iff not darwin and the signature is set. Sway iff also no signature and SWAYSOCK set. GNOME iff also no SWAYSOCK and either lowercased desktop variable contains "gnome". |
| Compositor.DarwinIgnoresEnvironment | pkg/compositor/detect.go:39-41 | On darwin the result is MacOS whatever the environment holds. |
| Compositor.DetectReadsOnlyItsVariables | pkg/compositor/detect.go:43-61 | Environments that agree on the four variables read are classified alike. |
| Compositor.GnomeMatchIgnoresCase | pkg/compositor/detect.go:54-57 | Desktop values that differ only in ASCII letter case both match "gnome" or both do not. |
| Compositor.DesktopExamples | pkg/compositor/detect_test.go:59-79 | The tests' "GNOME" (line 59) and "gnome" (line 70) select GNOME and "unity" (line 79) does not. "gnome-classic" is an extra value, not from the tests, showing that a substring match suffices. |
| LegacyCompositor.ToString | compositor.go:17-28 | The three platforms map to their names; every other value maps to "Unknown". |
| LegacyCompositor.DetectCompositor | compositor.go:30-48 | The same priority order as `Detect` without the macOS rule, each tag characterised by an if-and-only-if. |
| LegacyCompositor.AgreesWithDetect | compositor.go:30-48 | Off darwin, the legacy detector picks the same platform code and name as `Detect`. |
| LegacyCompositor.ToStringMatchesPackaged | compositor.go:17-28 | The legacy names equal the packaged ones on every code except 4, which reads "Unknown" in the legacy type. |
| Window.Render | pkg/window/types.go:14-19 | The "No active window found!" message exactly for a record with empty title and class. Otherwise the icon, then the title verbatim, then " (", the class verbatim and ")". The older layout (main.go) defines the same rendering. |
| Window.RenderIgnoresPidAndWorkspace | pkg/window/types.go:14-19 | Changing pid or workspace never changes the rendering. |
| Window.RenderDeterminesClassGivenTitle | pkg/window/types.go:18 | For two non-sentinel records with the same title, the renderings agree iff the classes agree. |
| Window.RenderEmptyTitleExample | pkg/window/types_test.go:22-30 | An empty title with class "Terminal" renders as the icon, an empty slot, then "(Terminal)". |
| Window.RenderEmptyClassExample | pkg/window/types_test.go:31-39 | An empty class renders as "()". |
| Window.RenderVerbatimExample | pkg/window/types_test.go:49-57 | `&`, `<` and `>` are embedded unescaped. |
| I3Ipc.DecodeLE32 | pkg/providers/sway.go:89 | The value of four little-endian bytes is below 2^32; `EncodeLE32` is its inverse (the two round-trip lemmas below). |
| I3Ipc.PayloadLength | pkg/providers/sway.go:88-89 | The length announced by header bytes 6 to 9, read little-endian, below 2^32. |
| I3Ipc.EncodeDecodeLE32 | pkg/providers/sway.go:89 | Decoding the little-endian encoding of any 32-bit value gives the value back. |
| I3Ipc.DecodeEncodeLE32 | pkg/providers/sway.go:89 | Encoding the decoded value of any four bytes gives the bytes back. |
| I3Ipc.GetTreeRequestIsFramed | pkg/providers/sway.go:71-74 | The literal request is the GET_TREE frame with an empty payload: 14 bytes, magic "i3-ipc", length 0, type 4. |
| I3Ipc.FrameHeaderRoundTrip | pkg/providers/sway.go:81-89 | Reading the header of any frame recovers the magic, the payload length and the type, and the payload follows the header. |
| Sway.PayloadBuffer | pkg/providers/sway.go:81-96 | The payload buffer's length is the length announced by header bytes 6 to 9. It holds the bytes the read delivered that fit, followed by zeros. |
| Sway.FramedReplyYieldsPayload | pkg/providers/sway.go:81-96 | A reply framed as the protocol prescribes yields exactly its payload. |
| SwayTree.FindFocusedNode | pkg/providers/sway.go:141-162 | Any node found is focused, carries window properties and lies in the searched tree. |
| SwayTree.FindInChildren | pkg/providers/sway.go:148-159 | Any node found among a child list qualifies and lies in one of the children's subtrees. |
| SwayTree.FindFocusedIsFirstInPreOrder | pkg/providers/sway.go:141-162 | The search returns exactly the first qualifying node of the pre-order listing (node, tiled subtrees, floating subtrees), and nothing when none qualifies. |
| SwayTree.FindInChildrenIsFirst | pkg/providers/sway.go:148-159 | The loop over a child list returns the first qualifying node of the children's concatenated pre-order listings. |
| SwayTree.FirstFocusedSpec | pkg/providers/sway.go:141-162 | The reference "first match" is none iff no node qualifies, and otherwise a qualifying node with no qualifying node before it. |
| SwayTree.FindFocusedNodeCharacterised | pkg/providers/sway.go:141-162 | Nothing is found iff no node of the tree qualifies; what is found is the earliest qualifying node in pre-order. |
| SwayTree.FocusedRootWins | pkg/providers/sway.go:143-145 | A qualifying node is returned itself, whatever its children hold. |
| SwayTree.TiledBeforeFloating | pkg/providers/sway.go:148-159 | A hit among the tiled children wins over any hit among the floating ones. |
| Sway.Normalize | pkg/providers/sway.go:108-137 | Title and class come from the window properties or are "", pid is 0 when absent; workspace is the representation if present, else the name if present, else "". |
| Sway.EmptyRepresentationWins | pkg/providers/sway.go:125-130 | A present but empty representation wins over a present non-empty name. |
| Sway.GetActiveWindow | pkg/providers/sway.go:59-138 | An empty SWAYSOCK gives its error. A failure to dial, write, read the header or read the payload, or an undecodable payload, gives its own message carrying the cause. On a delivered tree, no qualifying node gives the "no focused window" error, and a qualifying node gives the normalisation of the first one in pre-order. |
| Sway.MissingSocketNeverConnects | pkg/providers/sway.go:60-63 | With SWAYSOCK empty, the outcome depends on neither the socket nor the decoder. |
| Sway.OnlyGetTreeIsSent | pkg/providers/sway.go:65-79 | Sockets that answer the GET_TREE request on the SWAYSOCK path alike give the same outcome. |
| LegacySway.GetSwayActiveWindow | sway.go:47-93 | The same conversation and search as the provider, returning the first qualifying node in pre-order unnormalised. Each failure (missing SWAYSOCK, dial, write, header read, payload read, decode, no focused node) has its own legacy-worded message. |
| LegacySway.AgreesWithProvider | sway.go:47-93 | The legacy client finds a node iff the provider produces a record, and the record is that node's normalisation. |
| Hyprland.RuntimeDir | pkg/providers/hyprland.go:53-56 | XDG_RUNTIME_DIR when non-empty, else "/tmp"; never empty. |
| Hyprland.SocketPath | pkg/providers/hyprland.go:58 | The path is the runtime dir, "/hypr/", the signature, then "/.socket2.sock", each at its position. |
| Hyprland.Classify | pkg/providers/hyprland.go:79-81 | "no window" iff the trimmed reply is "" or "Invalid"; otherwise the reply is handed on unchanged. |
| Hyprland.ClassifyResponse | pkg/providers/hyprland.go:71-81 | The classification of the first 4096 received bytes, trimmed; JSON handed on is trimmed. |
| Hyprland.OnlyFirst4096BytesMatter | pkg/providers/hyprland.go:71-72 | Bytes beyond the first 4096 never change the classification. |
| Hyprland.PaddedInvalidIsNoWindow | pkg/providers/hyprland.go:77-81 | "Invalid" or nothing, padded with any white space, means no window. |
| Hyprland.WorkspaceLabel | pkg/providers/hyprland.go:88-92 | The name when non-empty. Otherwise the `%d` form of the id: canonical digits, a minus sign only for negative ids, parsing back to the id. Never empty. |
| Hyprland.WorkspaceLabelExamples | pkg/providers/hyprland.go:88-92 | Id 3 with an empty name gives "3"; a name wins over the id. |
| Hyprland.Normalize | pkg/providers/hyprland.go:94-99 | Title, class and pid are copied unchanged; the workspace is the label. |
| Hyprland.Query | pkg/providers/hyprland.go:47-86 | The signature check comes first. A failure to dial, write or read ends the query with that failure. "No window" iff the reply on the environment's socket classifies so. Any other reply ends as the decoder's outcome for the trimmed text: decoded iff it decodes. |
| Hyprland.GetActiveWindow | pkg/providers/hyprland.go:47-100 | A missing signature, a "no window" reply, and each dial, write, read or decode failure give their own messages, the failures carrying the cause. A record is produced iff the signature is set, the socket replied, the reply is not "no window" and it decodes; the record is the decoded window's normalisation. |
| Hyprland.NoWindowReplyIsNotDecoded | pkg/providers/hyprland.go:79-81 | After a "no window" reply the decoder is irrelevant. |
| Hyprland.MissingSignatureNeverConnects | pkg/providers/hyprland.go:48-51 | With no signature, the outcome depends on neither the socket nor the decoder. |
| LegacyHyprland.GetHyprlandActiveWindow | hyprland.go:35-78 | The same checks and classification as the provider. Each failure (missing signature, dial, write, read, "no window", decode) has its own legacy-worded message. A window is returned iff the signature is set, the socket replied, the reply is not "no window" and it decodes; it is the decoder's window, unnormalised. |
| LegacyHyprland.AgreesWithProvider | hyprland.go:35-78 | The legacy client returns a window iff the provider produces a record, which is its normalisation. Both report the same "no window" error. |
| Gnome.Normalize | pkg/providers/gnome.go:81-86 | Title, class and pid are copied; the workspace is the `%d` form of the window id, parsing back to it. |
| Gnome.TryExtension | pkg/providers/gnome.go:67-87 | A failed call or an undecodable reply is an error naming that step. Success iff the call answered and the answer decodes, with its normalisation. |
| Gnome.GetActiveWindow | pkg/providers/gnome.go:50-64 | An unreachable bus is an error carrying its cause. A record iff the bus was reached, the call answered and the answer decodes. Every other failure is the single "extension not enabled" message. |
| Gnome.ExtensionFailureCauseIsDropped | pkg/providers/gnome.go:57-63 | A failed call and an undecodable reply give the same "extension not enabled" error. |
| Gnome.NormalizeExample | pkg/providers/gnome.go:81-86 | Window id 7 gives workspace "7". |
| LegacyGnome.TryExtension | gnome-shell.go:54-74 | As the provider's, with the legacy wording of the call error. |
| LegacyGnome.GetGNOMEActiveWindow | gnome-shell.go:10-23 | As the provider's, with the legacy wording of the bus error. |
| LegacyGnome.AgreesWithProvider | gnome-shell.go:10-23 | Once the bus is reached, the legacy client and the provider give the same result, errors included. They differ only in the wording of an unreachable bus. |
| MacOS.AppWindow | pkg/providers/macos.go:68-73 | The app name is both title and class, and the workspace is "main". |
| MacOS.PidOrZero | pkg/providers/macos.go:63-66 | The parsed pid when the text parses, else 0. |
| MacOS.ParseAppLine | pkg/providers/macos.go:54-73 | Succeeds iff the line holds a `|`. The name is the text before the first `|`, and the pid is read from the text up to the next `|`. |
| MacOS.TwoFieldsRead | pkg/providers/macos.go:55-61 | `name|pid` gives that name and that pid. |
| MacOS.ExtraFieldsIgnored | pkg/providers/macos.go:55-61 | Fields after the second are ignored. |
| MacOS.UnparsablePidIsZero | pkg/providers/macos.go:63-66 | An unparsable pid gives 0 instead of an error. |
| MacOS.FrontmostApp | pkg/providers/macos.go:33-74 | A failure to run the script gives "failed to execute AppleScript: " and its cause. Empty trimmed output is the "no active application" error. Otherwise it succeeds iff the trimmed output holds a `|`, with the parsed line. |
| MacOS.QuotedName | pkg/providers/macos.go:90-100 | The text inside the leftmost `"…"` with non-empty, quote-free content. None iff no such span exists. |
| MacOS.PidDigits | pkg/providers/macos.go:91-94 | The maximal digit run after the leftmost `pid=` followed by a digit; none iff no such match exists. |
| MacOS.LSAppInfo | pkg/providers/macos.go:78-115 | A failure to run the program gives "failed to execute lsappinfo: " and its cause, the message the provider reports when both queries fail. Success iff a quoted name exists, with that name as title and class and workspace "main". The pid comes from the `pid=` digits, or is 0 when absent or unparsable. |
| MacOS.QuotedNameExample | pkg/providers/macos.go:90-100 | `"Finder" pid=512` yields the name Finder. |
| MacOS.PidDigitsExample | pkg/providers/macos.go:91-94 | `"Finder" pid=512` yields the digits 512. |
| MacOS.PidTextExample | pkg/providers/macos.go:104-106 | "512" reads as 512. |
| MacOS.LSAppInfoExample | pkg/providers/macos.go:78-115 | `"Finder" pid=512` yields Finder/Finder, pid 512, workspace "main". |
| MacOS.GetActiveWindow | pkg/providers/macos.go:22-30 | The primary query's record when it succeeds, else the fallback's outcome as is. Every record has title equal to class and workspace "main". An error means both queries failed. |
| MacOS.MalformedPrimaryFallsBack | pkg/providers/macos.go:22-30 | When the primary output holds no `|`, the fallback decides. |
| Providers.Name | pkg/providers/factory_test.go:80-90 | Every provider name is non-empty. |
| Providers.NamesDistinct | pkg/providers/factory_test.go:86-89 | Two providers share a name iff they are the same provider. |
| Providers.Platform | pkg/providers/factory.go:12-20 | Every provider serves one of the four platforms, never Unknown. |
| Providers.UnsupportedMessage | pkg/providers/factory.go:22 | The factory's error names the tag and contains "Supported" and the list "Hyprland, Sway, GNOME Shell, macOS". |
| Providers.NewProvider | pkg/providers/factory.go:11-23 | A provider iff the tag is one of the four platforms, and it serves that tag; any other tag gives an error containing "Supported". |
| Providers.NewProviderRoundTrip | pkg/providers/factory.go:12-20 | The factory inverts `Platform`: the mapping is one-to-one. |
| Providers.DetectedPlatformHasProvider | pkg/providers/factory.go:12-23 | A detected tag gets a provider iff it is not Unknown. |
| Providers.FactoryExamples | pkg/providers/factory_test.go:17-89 | Each platform tag builds its provider with the expected name; Unknown is an error. |
| Providers.GetActiveWindow | pkg/window/types.go:22-27 | Each provider answers with its own platform's query: the Hyprland and Sway sockets, the GNOME session bus, or the macOS helper programs. |
| Providers.NoCrossPlatformFallback | pkg/providers/factory.go:12-23 | A provider's outcome is unchanged when every other platform's inputs are replaced. |
| LegacyMain.GetHyprlandWindowInfo | main.go:85-102 | The client's error is passed on unchanged; a window is normalised with the workspace-label fallback. |
| LegacyMain.GetSwayWindowInfo | main.go:104-139 | The client's error is passed on unchanged; a node is normalised with the title, class, pid and workspace defaults. |
| LegacyMain.UnsupportedMessage | main.go:81 | The entry point's error names the tag, then "supported: " and the list "Hyprland, Sway, GNOME-Shell". |
| LegacyMain.GetActiveWindowInfo | main.go:72-83 | Hyprland, Sway and GNOME are routed to the older layout's own clients; any other tag is the unsupported error. |
| LegacyMain.AgreesWithProviders | main.go:72-83 | On the three platforms, the legacy entry point produces a record iff the packaged provider does, and the same record. |
| LegacyMain.MacOSIsUnsupported | main.go:72-83 | Code 4 is an error for the legacy entry point while the packaged factory builds the macOS provider for it. |
| Text.ToLower | pkg/compositor/detect.go:54-55 | Same length; every ASCII capital is lowered and every other character kept. |
| Text.Contains | pkg/compositor/detect.go:57 | True iff the text occurs at some index. |
| Text.TrimSpace | pkg/providers/hyprland.go:77 | The result has no white space at either end, and it is the input with white-space padding removed. |
| Text.TrimSpaceOfPadded | pkg/providers/hyprland.go:77 | Trimming a trimmed text padded with white space gives the text back. |
| Text.TrimSpaceIdempotent | pkg/providers/macos.go:49 | Trimming twice is trimming once. |
| Text.IndexOf | pkg/providers/macos.go:55 | The first index of the character; none iff it does not occur. |
| Text.Split | pkg/providers/macos.go:55 | At least one part. Joining the parts gives the input back. No part holds the separator. One part iff the separator does not occur. |
| Text.SplitAfterFirst | pkg/providers/macos.go:55-61 | Text whose first separator follows `a` splits into `a` followed by the parts of the rest. |
| Text.DecimalString | pkg/providers/hyprland.go:91 | The `%d` form: the canonical digits of the magnitude, with no superfluous leading zero, preceded by a minus sign exactly for negatives. |
| Text.DecimalStringIsTheDecimalForm | pkg/providers/hyprland.go:91 | The `%d` form is unique: every string in that form for `n` is `DecimalString(n)`. |
| Text.CanonicalDigitsAreDigits | pkg/providers/hyprland.go:91 | Every digit string without a superfluous leading zero is the one `Digits` gives for its value. |
| Text.ParseDecimal | pkg/providers/macos.go:63 | Succeeds iff the text is an optional sign followed by at least one digit, and its value fits in 64 bits. The result is that value, negated after a minus sign. |
| Text.DecimalRoundTrip | pkg/providers/hyprland.go:91 | Parsing the decimal form of any 64-bit integer gives it back. |
| Bytes.ToText | pkg/providers/hyprland.go:77 | `string(bytes)` as one character per byte: same length, each character's code the byte's value. |
| Bytes.ReadInto | pkg/providers/sway.go:92-93 | The buffer has the requested size, holds the available bytes that fit, and is zero elsewhere. |
| Bytes.Take | pkg/providers/hyprland.go:71-77 | At most `n` bytes, a prefix of the input. |

## Left out

- Socket I/O (`net.Dial`, `conn.Write`, `conn.Read`): modelled as an input function. Each read receives the bytes the `Session` says were available to it, and a short read leaves the rest of its zeroed buffer at zero. What is not modelled: bytes one read leaves unread are never carried into the next read, because the header read and the payload read receive independent inputs; partial writes and timeouts are not modelled either.
- JSON decoding (`encoding/json`): an input function returning the decoded record or an error. Geometry fields of the Sway tree (rectangles, border, layout, percent) are never read and are not modelled; neither are the GNOME reply fields the clients never read (geometry, window flags, role).
- `json.MarshalIndent` output of the `--full` / `info` modes: printing is out of scope.
- The D-Bus session bus and the method call: whether the bus is reachable and what the Focused Window extension answers are inputs (`Gnome.Bus`).
- Running `osascript` and `lsappinfo`: their output is an input.
- CLI plumbing: cmd/yawi.go and `main` in main.go (flags, cobra commands, printing, exit codes). This includes the CLI's own "unable to detect supported platform" check before the factory.
- Hyprland.SocketPath: plain concatenation. The cleaning `filepath.Join` performs is not modelled: it collapses duplicate separators, e.g. from a trailing `/` in XDG_RUNTIME_DIR, and resolves `.`/`..` elements.
- Text.TrimSpace: only ASCII white space is trimmed. Multi-byte UTF-8 white space such as U+0085 or U+00A0, which Go also trims, is kept.
- Text.ToLower: only ASCII letters are lowered; Go also lowers non-ASCII letters. "gnome" is ASCII, so only a non-ASCII look-alike could differ.
- Bytes.ToText: one character per byte. UTF-8 decoding of the reply is not modelled; only ASCII characters are inspected.
- Text.ParseDecimal: models `strconv.Atoi` on a 64-bit platform. The result is bounded to the 64-bit range, and a value outside it fails. 32-bit platforms are not modelled.
- I3Ipc.DecodeLE32: Go ORs shifted bytes into a platform `int`. On a 64-bit platform this equals the sum modelled here. The overflow a 32-bit `int` would allow is not modelled.
- Nil children in the Sway tree's `nodes` lists (a `null` array element) are not representable; Go would dereference them.
- The regular expressions of the lsappinfo fallback are modelled as leftmost-match scans (`MacOS.QuotedName`, `MacOS.PidDigits`), not by a regex engine.

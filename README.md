# Service dashboard: Apache import pipeline and catalog state, in Dafny

This project models the logic of a personal dashboard that lists links and
reverse-proxied services. The centre of the model is the import pipeline
that turns Apache configuration text into dashboard entries:

- the import panel collects pasted text and loaded files into one buffer;
- the buffer is cut into `<VirtualHost …>…</VirtualHost>` blocks;
- each block's first `ServerName` and first `ProxyPass / http(s)://host` are read;
- candidates whose url the dashboard already lists are dropped;
- the outcome is reported as one of four messages.

Around the pipeline it models the following:

- the catalog held by the application: update, delete, toggle, edit-save, create, import and search;
- the generator of `<VirtualHost>` text from the reverse-proxy form, with its presets and its "add to dashboard" entry;
- the dashboard's grouping by type and title;
- the four status counters;
- the add/edit dialog's form state.

Files, one module each:

| file | module | models |
|---|---|---|
| `types.dfy` | `Types` | `LinkItem`, `ProxyConfig`, url and id sets (types.ts) |
| `text.dfy` | `Text` | JavaScript `\s`, substring search, ASCII lowering, decimal rendering, `join` |
| `apache_parser.dfy` | `ApacheParser` | components/ApacheParser.tsx |
| `import_example.dfy` | `ImportExample` | one block imported end to end |
| `app.dfy` | `App` | App.tsx |
| `manual_proxy_config.dfy` | `ManualProxyConfig` | components/ManualProxyConfig.tsx, and its round trip through the import |
| `dashboard.dfy` | `Dashboard` | components/Dashboard.tsx |
| `status_cards.dfy` | `StatusCards` | components/StatusCards.tsx |
| `add_link_modal.dfy` | `AddLinkModal` | components/AddLinkModal.tsx |

The three regular expressions of the import are hand-written scanners:

- Blocks follow the leftmost-match semantics of a global lazy pattern. Each block is the leftmost `<VirtualHost` that has a `</VirtualHost>` after it, closed by the nearest such tag; the scan resumes after that tag.
- The two directive scanners return the value found at the leftmost position where the pattern matches.

The state the components hold in React hooks is a class per component:

- `ApacheParser.ParserPanel`
- `App.AppState`
- `ManualProxyConfig.ProxyForm`
- `AddLinkModal.LinkForm`

Each class's methods state the new state in terms of specification functions. The lemmas prove what the source promises about those functions.

A server reply is a parameter of the handler that awaits it (`App.Reply`):
an ok reply with its body, or a failure.

Behaviour of the import and its surroundings worth noting:

- A `ProxyPass` target is read up to the first `/` or space. A deeper path is not rejected: `ProxyPass / http://h:3000/x` yields `http://h:3000`.
- A failed read of any one file discards the whole batch (`Promise.all`). Sibling reads are not kept.
- Nothing in the client checks url uniqueness:
  - candidates of one batch are compared only with the urls listed before the batch (`ApacheParser.BatchDuplicatesBothKept`);
  - edits and manual adds are never checked.
  Uniqueness is therefore proved only conditionally (`App.ImportKeepsUrlsUnique`, `App.RemoveByIdKeepsUrlsUnique`).
- There are four outcomes: full and partial success share one branch and differ only in the "skipped" sentence (`ApacheParser.SuccessMessageSpec`).
- The dashboard sorts each type group by title, not the whole list at once.
- The default proxy settings of the add/edit dialog carry the certificate path `/etc/ssl/certs/your_domain.crt` and the key path `/etc/ssl/private/your_domain.key`.

## Model

| member | source | states |
|---|---|---|
| `Types.Urls` | components/ApacheParser.tsx:92 | the url set holds exactly the urls of the listed entries |
| `Types.Ids` | App.tsx:88 | the id set holds exactly the ids of the listed entries |
| `ApacheParser.VhostMatchIsBlock` | components/ApacheParser.tsx:67 | a block match at a position opens with `<VirtualHost` there, ends with `</VirtualHost>`, and has no closing tag in between |
| `ApacheParser.VhostMatchAtIff` | components/ApacheParser.tsx:67 | the block pattern matches at a position exactly when an opening tag is there and some closing tag follows it |
| `ApacheParser.FirstVhost` | components/ApacheParser.tsx:71 | the scan finds the leftmost position at or after its start where the block pattern matches, and none if no position matches |
| `ApacheParser.VhostSpans` | components/ApacheParser.tsx:71 | the blocks found run left to right, each is a match of the pattern, and none overlaps the next |
| `ApacheParser.VhostSpansLeftmost` | components/ApacheParser.tsx:71 | each block starts at the leftmost match after the previous block's end, and no match is left after the last block |
| `ApacheParser.Blocks` | components/ApacheParser.tsx:71 | the texts returned are exactly the slices of the buffer that the found blocks cover, one per block |
| `ApacheParser.BlocksAreNearestPairs` | components/ApacheParser.tsx:67 | each block text opens with `<VirtualHost`, ends with `</VirtualHost>`, and holds no other closing tag |
| `ApacheParser.SingleBlock` | components/ApacheParser.tsx:67 | a text that opens with the opening tag, ends with the closing tag and has no other `<` is exactly one block |
| `ApacheParser.NoBlocksIff` | components/ApacheParser.tsx:71-75 | no block is found exactly when no opening tag has a closing tag after it |
| `ApacheParser.NoSpansIff` | components/ApacheParser.tsx:71-72 | the scan finds no block exactly when the block pattern matches nowhere |
| `ApacheParser.ServerNameShape` | components/ApacheParser.tsx:68 | a server name is captured after the keyword, and it is a non-empty run free of whitespace and `#` |
| `ApacheParser.ProxyTargetShape` | components/ApacheParser.tsx:69 | a proxy target is captured after the keyword, and it is `http://` or `https://` and then a non-empty run free of whitespace and `/` |
| `ApacheParser.FirstHit` | components/ApacheParser.tsx:78-79 | a pattern without the global flag reports its leftmost match in range, and none when it matches nowhere |
| `ApacheParser.ServerNameFirst` | components/ApacheParser.tsx:68 | a `ServerName value` with no keyword before it is the first match, and its value is read back exactly up to the whitespace that follows |
| `ApacheParser.SchemeHostReadBack` | components/ApacheParser.tsx:69 | a target followed by `/` is read back exactly, so the capture stops at the first `/` |
| `ApacheParser.ProxyPassFirst` | components/ApacheParser.tsx:69 | a `ProxyPass / target/` with no keyword before it is the first match, and its target is read back without the trailing `/` |
| `ApacheParser.ExtractSpec` | components/ApacheParser.tsx:77-90 | a block yields a candidate exactly when both directives match; title = server name, url = `http://` + name, description = `Apache Reverse Proxy to ` + target + ` (Detected)`, no icon |
| `ApacheParser.Detect` | components/ApacheParser.tsx:77-90 | every candidate comes from a block, and every block that yields a candidate contributes it |
| `ApacheParser.DetectKeepsOrder` | components/ApacheParser.tsx:77-90 | candidates keep block order: detection distributes over concatenation of the blocks |
| `ApacheParser.DetectOne` | components/ApacheParser.tsx:77-90 | one block detects its candidate if it has one, and nothing otherwise |
| `ApacheParser.KeepNew` | components/ApacheParser.tsx:92-93 | the accepted candidates are exactly those whose url is not listed yet |
| `ApacheParser.KeepNewOne` | components/ApacheParser.tsx:93 | a single candidate is kept exactly when its url is new |
| `ApacheParser.KeepNewKeepsOrder` | components/ApacheParser.tsx:93 | de-duplication keeps the candidates' order |
| `ApacheParser.SkippedAreTheExisting` | components/ApacheParser.tsx:92-94 | accepted + skipped = detected, and the skipped ones are exactly the candidates whose url was listed |
| `ApacheParser.BatchDuplicatesBothKept` | components/ApacheParser.tsx:92-93 | two candidates with the same new url in one batch are both accepted |
| `ApacheParser.ClassifySpec` | components/ApacheParser.tsx:71-108 | four outcomes: no blocks exactly when nothing matches; nothing extracted exactly when blocks exist but none yields a candidate; "added" carries the new candidates and the skipped count; "all existing" when every candidate's url is listed |
| `ApacheParser.ClassifyOneBlock` | components/ApacheParser.tsx:71-105 | a single usable block is added, or reported as the one existing service when its url is listed |
| `ApacheParser.SuccessMessageCount` | components/ApacheParser.tsx:98 | the success message opens with its fixed prefix, then the decimal count added |
| `ApacheParser.SuccessMessageSkipped` | components/ApacheParser.tsx:99-101 | the "skipped" sentence ends the success message exactly when some candidate was skipped |
| `ApacheParser.SuccessMessageSpec` | components/ApacheParser.tsx:98-101 | the count in the success message reads back as the number added, and the "skipped" sentence is there exactly when skipped > 0 |
| `ApacheParser.Annotated` | components/ApacheParser.tsx:46-48 | each file becomes its content between `# --- Start of NAME ---` and `# --- End of NAME ---`, in file order |
| `ApacheParser.JoinHoldsPiece` | components/ApacheParser.tsx:50 | every annotated file appears whole in the blank-line-joined text |
| `ApacheParser.AnnotateHoldsContent` | components/ApacheParser.tsx:47 | a file's content sits right after its start banner |
| `ApacheParser.AppendLoadedKeepsBuffer` | components/ApacheParser.tsx:50 | loading keeps the old buffer in front |
| `ApacheParser.AppendLoadedHoldsPiece` | components/ApacheParser.tsx:50 | each annotated file sits in the new buffer after the old buffer and its separator |
| `ApacheParser.LoadedBufferHoldsEveryFile` | components/ApacheParser.tsx:46-50 | after loading, the buffer still starts with the old text and contains every file, with and without its banners |
| `ApacheParser.ParserPanel.constructor` | components/ApacheParser.tsx:17-19 | the buffer and the message start empty, with message kind info |
| `ApacheParser.ParserPanel.Edit` | components/ApacheParser.tsx:130 | typing replaces the buffer |
| `ApacheParser.ParserPanel.LoadFiles` | components/ApacheParser.tsx:28-60 | no files: nothing changes; a failed read: the buffer is unchanged and the error message is shown; otherwise the annotated files are appended after a blank line, or replace an empty buffer |
| `ApacheParser.ParserPanel.Parse` | components/ApacheParser.tsx:66-109 | `onAddLinks` gets the accepted list exactly in the "added" outcome, and only then is the buffer cleared; the message and its kind match the outcome |
| `ImportExample.SampleIsOneBlock` | components/ApacheParser.tsx:67 | the sample configuration is exactly one block |
| `ImportExample.ServerNameAfter` | components/ApacheParser.tsx:68 | a `ServerName name` line after text with no `S` yields that name |
| `ImportExample.SampleServerName` | components/ApacheParser.tsx:68 | the sample's server name is `a.local` |
| `ImportExample.ProxyPassAfter` | components/ApacheParser.tsx:69 | a `ProxyPass / target/…` line after text with no `P` yields the target without the `/` |
| `ImportExample.SampleProxyPass` | components/ApacheParser.tsx:69 | `ProxyPass / http://localhost:3000/` yields `http://localhost:3000` |
| `ImportExample.SingleBlockImports` | components/ApacheParser.tsx:77-105 | one block with both directives gives one candidate, added unless its url is listed |
| `ImportExample.SampleImports` | components/ApacheParser.tsx:66-105 | into an empty dashboard the sample adds `{a.local, http://a.local, Apache Reverse Proxy to http://localhost:3000 (Detected)}` and skips nothing |
| `ImportExample.SampleAlreadyListed` | components/ApacheParser.tsx:104-105 | when `http://a.local` is already listed, the outcome is "all 1 already exist" |
| `App.ReplaceById` | App.tsx:66 | the entries carrying the saved id are replaced by the saved entry; all others, the order and the length are unchanged |
| `App.RemoveById` | App.tsx:80 | the survivors are exactly the entries whose id differs |
| `App.RemoveByIdCount` | App.tsx:80 | delete removes one entry per occurrence of the id and no more |
| `App.RemoveByIdKeepsOrder` | App.tsx:80 | delete keeps the survivors' relative order |
| `App.RemoveByIdKeepsUrlsUnique` | App.tsx:78-81 | delete keeps pairwise-distinct urls distinct |
| `App.UniqueUrlsTail` | App.tsx:80 | the entries after the head of a list with distinct urls have distinct urls, none equal to the head's |
| `App.UniqueUrlsCons` | App.tsx:80 | a head whose url no later entry shares keeps urls distinct |
| `App.FindIndex` | App.tsx:88 | `find` stops at the first entry with the id, or finds none when no entry has it |
| `App.Flip` | App.tsx:90 | the toggled entry differs from the original only in `enabled`, which is negated |
| `App.ToggledSpec` | App.tsx:87-92 | with distinct ids, toggle flips `enabled` on the entry with the id, changes nothing else, and is a no-op for an unknown id |
| `App.ToggledKeepsIds` | App.tsx:87-92 | toggle keeps every position's id and the length |
| `App.ToggleTwiceRestores` | App.tsx:87-92 | with distinct ids, toggling twice restores the list |
| `App.Merge` | App.tsx:128 | the saved entry takes the form's fields; id and enabled come from the entry being edited, and so does proxyConfig when the form has none |
| `App.EditKeepsIds` | App.tsx:126-128 | an echoed edit keeps every position's id and the edited entry's `enabled`, and changes no entry with another id |
| `App.EditUnchangedIsIdentity` | App.tsx:128 | opening an entry and saving it unchanged returns it exactly when it has a category and, for a service, proxy settings |
| `App.Promote` | App.tsx:153-166 | a promoted candidate gets the given id, type service, enabled, category `Imported` and the fixed proxy settings |
| `App.PromoteKeepsCandidate` | App.tsx:154 | promotion keeps title, url, description and icon |
| `App.PromoteAll` | App.tsx:151-166 | each survivor is promoted with its own fresh id, in order |
| `App.ImportBatchSpec` | App.tsx:150-166 | every entry sent by the import has an unlisted url, a fresh id, comes from a candidate and carries the import defaults |
| `App.ImportKeepsUrlsUnique` | App.tsx:150-177 | distinct urls before plus a batch with distinct urls give distinct urls after appending |
| `App.Search` | App.tsx:185-193 | the result is the entries whose lowered title, url, description or non-empty category contains the lowered query |
| `App.SearchKeepsOrder` | App.tsx:185 | search keeps the list order (a subsequence) |
| `App.EmptyQueryKeepsAll` | App.tsx:185-193 | an empty query returns every entry |
| `App.SearchIgnoresQueryCase` | App.tsx:186 | lowering the query first changes nothing |
| `App.AppState.constructor` | App.tsx:16-24 | the initial state of every hook |
| `App.AppState.FetchData` | App.tsx:26-43 | an ok reply replaces name and list and clears the error; a failure keeps both and records the error; loading ends either way |
| `App.AppState.UpdateLink` | App.tsx:55-72 | an ok reply replaces by id and ends the edit; a failure changes nothing |
| `App.AppState.DeleteLink` | App.tsx:74-85 | an ok reply removes the id; a failure leaves the list unchanged |
| `App.AppState.ToggleLink` | App.tsx:87-92 | sends the flipped first entry with the id, or nothing for an unknown id; an ok reply replaces by id and ends the edit, as saving an edit does; an echoed reply gives the toggled list; a failure or unknown id leaves list and edit unchanged |
| `App.AppState.AppNameChange` | App.tsx:94-108 | the name changes at once; an ok save keeps list, error and loading flag; a failed save reloads: an ok reload replaces name and list and clears the error, a failed one keeps the typed name and the list and records the reload error; loading is off after a reload |
| `App.AppState.OpenAddModal` | App.tsx:110-114 | no entry is edited, the creation type is set, the dialog opens |
| `App.AppState.OpenEditModal` | App.tsx:116-119 | the entry is edited and the dialog opens |
| `App.AppState.CloseModal` | App.tsx:121-124 | the dialog closes and no entry is edited |
| `App.AppState.SaveLink` | App.tsx:126-147 | editing: sends the merged entry and applies the reply by id; creating: sends the draft under a fresh id and appends what an ok reply returns; the dialog closes |
| `App.AppState.AddParsedLinks` | App.tsx:149-183 | sends the promoted survivors only if there are any; an ok reply appends what it returns after the existing entries; otherwise the list is unchanged; the view becomes the dashboard |
| `App.AppState.SetSearchQuery` | App.tsx:23 | the query becomes the typed text |
| `App.AppState.SetView` | App.tsx:24 | the view becomes the chosen one |
| `ManualProxyConfig.WithPreset` | components/ManualProxyConfig.tsx:24-35 | react: `http://localhost:3000` with WebSockets; nodejs: `http://localhost:8080` with WebSockets; generic: `http://localhost:8000` without; nothing else changes |
| `ManualProxyConfig.DisplayName` | components/ManualProxyConfig.tsx:43 | the server name when it is non-empty, and `your-domain.com` when it is empty |
| `ManualProxyConfig.ConfigFrame` | components/ManualProxyConfig.tsx:42-64 | the text opens with `<VirtualHost *:443>` with SSL and `<VirtualHost *:80>` without, and ends with `</VirtualHost>` |
| `ManualProxyConfig.SslSectionIff` | components/ManualProxyConfig.tsx:45-49 | the lines after the server-name lines are `SSLEngine on`, `SSLCertificateFile "cert"` and `SSLCertificateKeyFile "key"` with the quoted paths exactly when SSL is enabled |
| `ManualProxyConfig.ProxyLinesMapRoot` | components/ManualProxyConfig.tsx:51-53 | right after the preamble and the proxy comment line, the text holds `MappingLines`: a `ProxyPass` line and then a `ProxyPassReverse` line, both mapping `/` to the target + `/` |
| `ManualProxyConfig.WsTargetSwapsScheme` | components/ManualProxyConfig.tsx:39-60 | the WebSocket target replaces the `http` of an `http(s)://` target with `ws`, giving `wss://` exactly for `https://`; any other target goes after `ws://` whole |
| `ManualProxyConfig.WsSectionIff` | components/ManualProxyConfig.tsx:55-62 | the text ends with the whole WebSocket block (comment, `RewriteEngine On`, the two `RewriteCond` lines and the `RewriteRule` to `WsTarget` of the target, whose scheme `WsTargetSwapsScheme` gives) and then `</VirtualHost>` exactly when WebSockets are enabled |
| `ManualProxyConfig.EntryFor` | components/ManualProxyConfig.tsx:75-95 | no entry while the server name or the target is empty; otherwise one enabled entry, https exactly with SSL, `Reverse proxy to ` + target, a copy of the form's proxy settings |
| `ManualProxyConfig.Render` | components/ManualProxyConfig.tsx:37-67 | the text built line by line is the generated configuration |
| `ManualProxyConfig.ConfigIsOneBlock` | components/ManualProxyConfig.tsx:42-64 | with no `<` in the copied fields, the generated text is exactly one block for the import |
| `ManualProxyConfig.ConfigServerName` | components/ManualProxyConfig.tsx:43 | the import reads back the displayed server name from the generated text |
| `ManualProxyConfig.ConfigProxyPass` | components/ManualProxyConfig.tsx:52 | the import reads back the proxy target from the generated text |
| `ManualProxyConfig.GeneratedConfigImports` | components/ManualProxyConfig.tsx:42-64 | round trip: importing the generated text yields one candidate titled with the displayed server name and naming the proxy target |
| `ManualProxyConfig.ManualAndImportedEntries` | components/ManualProxyConfig.tsx:82-85 | an entry added by hand and the entry imported from its own text share the title; their urls agree exactly without SSL |
| `ManualProxyConfig.ProxyForm.constructor` | components/ManualProxyConfig.tsx:13-21 | initial fields after the generic preset, and the shown text is generated from them |
| `ManualProxyConfig.ProxyForm.ApplyPreset` | components/ManualProxyConfig.tsx:24-35 | the preset effect sets the fields to the preset of the current type |
| `ManualProxyConfig.ProxyForm.Generate` | components/ManualProxyConfig.tsx:37-67 | the shown text becomes the one generated from the fields, and the fields are unchanged |
| `ManualProxyConfig.ProxyForm.SelectAppType` | components/ManualProxyConfig.tsx:116-118 | choosing a different type applies its preset; the text stays in step |
| `ManualProxyConfig.ProxyForm.SetFields` | components/ManualProxyConfig.tsx:123-143 | the fields take the typed values; the text stays in step |
| `ManualProxyConfig.ProxyForm.AddToDashboard` | components/ManualProxyConfig.tsx:75-97 | emits exactly the entry `EntryFor` gives for the current fields |
| `Dashboard.TitleLeTotal` | components/Dashboard.tsx:16 | any two titles are comparable |
| `Dashboard.TitleLeTrans` | components/Dashboard.tsx:16 | the title order is transitive |
| `Dashboard.TitleLeAntisymmetric` | components/Dashboard.tsx:16 | titles that are each at most the other are equal |
| `Dashboard.OfType` | components/Dashboard.tsx:15 | a group holds every entry of its type as often as it occurs, and no other |
| `Dashboard.OfTypeKeepsOrder` | components/Dashboard.tsx:15 | filtering keeps the input order |
| `Dashboard.Insert` | components/Dashboard.tsx:16 | inserting adds exactly one occurrence of the entry |
| `Dashboard.SortedTail` | components/Dashboard.tsx:16 | the rest of a sorted group is sorted and comes after its head |
| `Dashboard.SortedCons` | components/Dashboard.tsx:16 | a head that comes before every later entry keeps a sorted group sorted |
| `Dashboard.InsertSorted` | components/Dashboard.tsx:16 | inserting into a sorted group keeps it sorted |
| `Dashboard.SortByTitle` | components/Dashboard.tsx:16 | the sorted group is ascending by title and a permutation of its input |
| `Dashboard.InsertWithTitle` | components/Dashboard.tsx:16 | an inserted entry comes before every entry sharing its title, and the others keep their order |
| `Dashboard.SortByTitleStable` | components/Dashboard.tsx:16 | the sort is stable: the entries sharing any one title keep their input order |
| `Dashboard.GroupMembers` | components/Dashboard.tsx:14-20 | a sorted group holds exactly the entries of its type |
| `Dashboard.GroupsPartition` | components/Dashboard.tsx:14-20 | services hold exactly the services, regular links exactly the links, each sorted, and together they are a permutation of the entries |
| `Dashboard.RenderSpec` | components/Dashboard.tsx:38-70 | the empty-state panel appears exactly for an empty list, with the search text exactly when a query is set; otherwise each section appears exactly when its group is non-empty |
| `StatusCards.CountWhere` | components/StatusCards.tsx:35-38 | the count is the number of positions whose entry satisfies the predicate; at most the number of entries, 0 for none |
| `StatusCards.OnlineIsActiveSum` | components/StatusCards.tsx:35-37 | online = active services + active links |
| `StatusCards.OnlineOfflineTotal` | components/StatusCards.tsx:37-38 | online + offline = number of entries |
| `StatusCards.Counters` | components/StatusCards.tsx:35-38 | active services = number of enabled services, active links = number of enabled links, online = number of enabled entries, offline = number of disabled entries; online = the two active counts added, online + offline = number of entries |
| `StatusCards.CountOfType` | components/StatusCards.tsx:35-36 | counting enabled entries of one type over the list counts the enabled entries of that type's group |
| `StatusCards.ActiveWithinGroups` | components/StatusCards.tsx:35-36 | the active cards never exceed the sizes of the dashboard's two sections |
| `AddLinkModal.ItemTypeOf` | components/AddLinkModal.tsx:34 | the edited entry's type when editing, otherwise the creation type |
| `AddLinkModal.WithFieldReadBack` | components/AddLinkModal.tsx:58-61 | a field change sets the named form field and no other |
| `AddLinkModal.WithProxyFieldReadBack` | components/AddLinkModal.tsx:63-66 | a proxy field change sets the named proxy field and leaves the others and both switches alone |
| `AddLinkModal.WithPreset` | components/AddLinkModal.tsx:83-89 | react: `http://localhost:3000`, nodejs: `http://localhost:8080`, WebSockets on, SSL fields untouched |
| `AddLinkModal.LinkForm.constructor` | components/AddLinkModal.tsx:24-56 | mounting and running the open effect leaves the state the open effect sets |
| `AddLinkModal.LinkForm.Open` | components/AddLinkModal.tsx:36-56 | editing copies title, url, description, icon, category or `''`, and proxy settings or the default; creating resets to empty text, no icon and the default |
| `AddLinkModal.LinkForm.Reset` | components/AddLinkModal.tsx:37-55 | the open effect's body, for the current props |
| `AddLinkModal.LinkForm.HandleChange` | components/AddLinkModal.tsx:58-61 | sets one form field |
| `AddLinkModal.LinkForm.HandleProxyChange` | components/AddLinkModal.tsx:63-66 | sets one proxy field |
| `AddLinkModal.LinkForm.SetSsl` | components/AddLinkModal.tsx:176 | sets only the SSL switch |
| `AddLinkModal.LinkForm.SetWebSockets` | components/AddLinkModal.tsx:189 | sets only the WebSocket switch |
| `AddLinkModal.LinkForm.ApplyPreset` | components/AddLinkModal.tsx:83-89 | applies the preset to the proxy settings |
| `AddLinkModal.LinkForm.Submit` | components/AddLinkModal.tsx:92-101 | the record carries the form fields, the icon and the item type; `proxyConfig` is present exactly for a service and is then the proxy settings; no id and no enabled |
| `AddLinkModal.OpenThenSubmit` | components/AddLinkModal.tsx:36-101 | submitting straight after opening gives the record the opened entry (or a blank form) determines |
| `AddLinkModal.NewDraftIsBlank` | components/AddLinkModal.tsx:50-55 | a new entry submits empty text and no icon, with the default proxy settings exactly for a service |

## Left out

- Network: every `fetch` and the endpoints behind it, including server.js and `db.json`. Each reply is an input to the handler (`App.Reply`). No server-side uniqueness guard is shown, so none is modelled.
- File reading: `FileReader`. A file is its name and either its text or a failed read (`ApacheParser.FileInput`). Icon upload in the dialog and in the card is left out for the same reason.
- Timers and browser state: `setTimeout` message expiry, clipboard copy, `alert`, `document.title`, and clearing the file input after loading. They change no modelled state.
- `crypto.randomUUID`: fresh ids are parameters, with the precondition that they are not listed yet.
- App.Search: `toLowerCase` is modelled on ASCII letters only. Unicode case mapping is a library call.
- Dashboard.SortByTitle: `localeCompare` is modelled as the lexicographic order of character codes. Locale collation is a library call. Stability, as `Array.prototype.sort` promises it, is proved (`Dashboard.SortByTitleStable`).
- App.ToggledSpec: stated for lists with distinct ids. With a repeated id, every entry carrying it becomes the flipped first one; `App.AppState.ToggleLink` states that general case.
- ManualProxyConfig.GeneratedConfigImports: holds only when the fields are importable. The server name is empty or free of whitespace, `#` and `<`. The target is `http(s)://host` with no `/`, whitespace or `<`. Neither the name nor, with SSL, the certificate and key paths contain `ProxyPass` or `<`. Other values can end the block early or put another `ProxyPass` first.
- React scheduling: each effect runs to completion when its dependencies change. Batched renders and stale closures are not modelled.
- Rendering-only components (header, search bar, theme switcher, toggle switch, settings page, service list editor, link card, icons) and hooks/useTheme.ts: they hold no logic of the import or the catalog.

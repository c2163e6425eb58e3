# Teacher's Command Center: the data-to-text pipeline, verified

The app reads the last day's mail, sends it to a language model as one
prompt, and renders the model's JSON reply as an HTML dashboard. This project
models the pure part of that pipeline in `app.py`, in Dafny:

- `clean_text`, which escapes HTML in mail- and model-derived text
  (module `Html`, file `html.dfy`);
- the header lookup, summary line and skip-on-failure loop of
  `fetch_emails` (module `Mail`, file `mail.dfy`);
- the empty-input guard and the user message of `generate_briefing`
  (module `Prompt`, file `prompt.dfy`);
- the dashboard fragments: schedule and action lists, the traffic panel,
  numbered hot-take blocks, and draft blocks labelled zip-with-default
  (module `Dashboard`, file `dashboard.dfy`).

`Text` (`text.dfy`) holds the Python string operations these use. That is
`sep.join`, `str.split`, repeated `+=`, `str(int)` and f-strings. An
f-string is `Format(parts, fields)`: its literal parts with the replacement
fields between them. `Wrappers` (`wrappers.dfy`) holds `Option`, used for
missing dictionary keys.

Modelling choices:

- The Gmail `list` call is an `Option<seq<Fetch>>`. It is `None` when the
  response has no `messages` key. Each entry is the outcome of that
  message's `get` call: `Fetched(message)` or `FetchFailed`.
- The parsed briefing is the record `Dashboard.Briefing`. Every field is
  an `Option`, `None` when its key is missing.
- JSON scalars are `Html.Value`: `Null | Bool | Int | Str`. `item.get(key)`
  yields `Null` for a missing key. `stats.get(key, 0)` yields `Int(0)`.
- `html.escape` is modelled twice. `PyHtmlEscape` is the chain of five
  `str.replace` calls CPython uses. `Escape` rewrites one character at a
  time. They are proved equal.
- "Safe to embed" is the predicate `IsEscaped`: no raw `<`, `>`, `"` or
  `'`, and every `&` starts one of the five entities.
- "No markup comes from the content" is stated by counting `<`. The
  hot-takes and drafts fragments, and the corrected traffic panel, hold
  exactly the `<` characters of their templates. The bullet lists are
  covered instead by `Dashboard.BulletListItems`, whose parts are bullets
  of `clean_text` output. The traffic panel as written is the exception
  recorded under "## Findings".

## Model

| member | source | states |
|---|---|---|
| `Html.PyStr` | app.py:209 | Python's `str()` of a JSON scalar (`None`, `True`/`False`, decimal integers, strings); it is empty only for the empty string |
| `Html.Falsy` | app.py:208 | Python's `not text`: true for `None`, `False`, `0` and `""` |
| `Html.PyHtmlEscape` | app.py:209 | `html.escape(s, quote=True)` as CPython writes it: five `str.replace` calls, `&` first |
| `Html.CleanText` | app.py:206-209 | the result is `""` exactly when the input is falsy (`None`, `False`, `0`, `""`), and it is always safe to embed in markup |
| `Html.CleanTextRoundTrip` | app.py:206-209 | decoding the five entities in `clean_text(v)` gives back `str(v)`, or `""` for a falsy value |
| `Html.CleanTextInjective` | app.py:206-209 | truthy values with different `str()` forms never clean to the same text |
| `Html.CleanTextInt` | app.py:206-209 | a non-zero integer passes `clean_text` as its plain decimal form |
| `Html.EscapeIsPyHtmlEscape` | app.py:209 | the one-character-at-a-time escape equals `html.escape`'s chain of replacements (`&` first, then `<`, `>`, `"`, `'`) |
| `Html.EscapeIsEscaped` | app.py:209 | the output of `html.escape` has no raw `<`, `>`, `"`, `'`, and every `&` in it starts an entity |
| `Html.UnescapeEscape` | app.py:209 | decoding the five entities undoes `html.escape` on every string |
| `Html.EscapeUnchanged` | app.py:209 | `html.escape(s) == s` exactly when `s` holds none of `&`, `<`, `>`, `"`, `'` |
| `Html.EscapeLength` | app.py:209 | escaping never shortens a string; it keeps the length only when nothing needed escaping |
| `Html.IntToStringPlain` | app.py:291 | `str(n)` of any integer needs no escaping |
| `Mail.HeaderValue` | app.py:199-200 | the value of the first header with the given name, or the default when no header has that name |
| `Mail.Summarize` | app.py:197-202 | one message's summary; it is `None` (the message is skipped) exactly when the response has no `payload.headers` list |
| `Mail.Outcome` | app.py:196-203 | one pass of the loop body: a failed fetch (any exception, swallowed by `except: pass`) adds nothing, otherwise the message's summary |
| `Mail.Collected` | app.py:195-204 | the lines `email_data` holds after the loop has visited the given messages: one per message whose body did not raise, in the messages' order |
| `Mail.SummaryLine` | app.py:202 | the summary f-string, with the sender, subject and snippet as its three fields |
| `Mail.SummarizeHeaders` | app.py:198-202 | a message with a headers list is never skipped; its line is exactly `From: ` + the first `From` value (else `Unknown`) + ` `, a vertical bar, ` Subject: ` + the first `Subject` value (else `No Subject`) + ` `, a vertical bar, ` Body: ` + the snippet (`""` when absent) |
| `Mail.SummaryLineText` | app.py:202 | the f-string's text is the three values between the fixed labels `From: `, `Subject: ` and `Body: `, separated by vertical bars |
| `Mail.FetchEmails` | app.py:188-204 | the loop, including the early `return []`, returns exactly the collected lines of the listed messages; a missing `messages` key reads as `[]` |
| `Mail.CollectedAppend` | app.py:195-204 | collecting distributes over concatenation of message lists, so the lines keep the messages' order |
| `Mail.CollectedLength` | app.py:195-204 | N listed messages of which K raised give exactly N - K lines |
| `Mail.CollectedFrom` | app.py:195-204 | every returned line is the summary of some listed message |
| `Mail.CollectedAllFetched` | app.py:195-204 | when no message raised, line i is the summary of message i |
| `Mail.CollectedSkipsFailure` | app.py:196-203 | a failed fetch contributes nothing: removing it leaves the same lines |
| `Mail.CollectedEmpty` | app.py:193-204 | the result is empty exactly when every listed message raised |
| `Prompt.UserMessage` | app.py:213-235 | the result is `None` (no client is built, no request is made) exactly when the email list is empty; otherwise the message starts with `EMAILS:` and a newline |
| `Prompt.UserMessageLines` | app.py:235 | for non-empty input with single-line emails, splitting the message at newlines gives `EMAILS:` followed by the emails in order |
| `Text.SplitJoin` | app.py:283 | `s.split(sep)` undoes `sep.join(parts)` when no part holds the separator's first character |
| `Text.ParseNatToString` | app.py:303 | the decimal rendering of a count reads back as that count |
| `Dashboard.Bullets` | app.py:282-286 | the list comprehension: one string per item, the bullet followed by `clean_text(item)` |
| `Dashboard.BulletList` | app.py:283-287 | the bullets joined with `<br><br>` |
| `Dashboard.ScheduleHtml` | app.py:282-283 | the schedule card: `• ` bullets over `data.get('schedule', [])` |
| `Dashboard.ActionsHtml` | app.py:286-287 | the action card: `☐ ` bullets over `data.get('actions', [])` |
| `Dashboard.Field` | app.py:297-300 | `item.get(key)` (here and for the draft label at app.py:315): a missing field reads as `None` |
| `Dashboard.TrafficStats` | app.py:290 | `data.get('traffic', {})`: a missing key reads as an object with no counters |
| `Dashboard.Counter` | app.py:291 | `stats.get(key, 0)`: a missing counter reads as the integer 0 |
| `Dashboard.BulletListItems` | app.py:282-287 | a bullet list is `""` for no items; otherwise splitting at `<br><br>` gives one part per item, in order, each the bullet followed by the cleaned item |
| `Dashboard.ScheduleItems` | app.py:282-283 | the schedule card has one `• ` bullet per schedule item; a missing `schedule` key gives `""` |
| `Dashboard.ActionItems` | app.py:286-287 | the action card has one `☐ ` bullet per action; a missing `actions` key gives `""` |
| `Dashboard.TrafficHtmlAsWritten` | app.py:290-291 | the traffic panel as app.py builds it: `str()` of each `stats.get(key, 0)` put into the f-string without escaping |
| `Dashboard.TrafficPanelText` | app.py:291 | the panel's f-string is `<b>Total:</b> `, the total, `<br><br><b>New Threads:</b> `, the new count, `<br><br><b>Replies:</b> `, the replies count |
| `Dashboard.TrafficCounterText` | app.py:290-291 | in the panel as built, each missing counter shows as the text `0`, and each explicit JSON null shows as `None` |
| `Dashboard.TrafficMissingKey` | app.py:290-291 | a missing `traffic` key reads as `{}`: the panel shows `0` for all three counters |
| `Dashboard.TrafficIntegersUnchanged` | app.py:291 | when every counter is an integer or missing, the escaped panel equals the panel as app.py writes it |
| `Dashboard.TrafficMarkup` | app.py:291 | the escaped panel holds the template's markup and nothing more, whatever the counters hold |
| `Dashboard.TrafficInjectionAsWritten` | app.py:291 | as written, a `<` in any string-valued counter (`total`, `new` or `continuing`, whatever the other two hold) reaches the panel as extra markup |
| `Dashboard.HotList` | app.py:295 | `data.get('hot_takes', [])`: a missing key reads as no hot takes |
| `Dashboard.HotTakeBlock` | app.py:297-307 | the hot-take f-string, numbered `n`, with the cleaned subject, sender, summary and crucial note (`item.get` gives `None` for a missing key, which cleans to `""`) |
| `Dashboard.HotTakeBlocks` | app.py:296-307 | the blocks the `enumerate` loop appends, one per hot take in order, block i numbered i+1 |
| `Dashboard.HotTakesHtml` | app.py:293-307 | the `+=` loop builds exactly the concatenation of one block per hot take, block i numbered i+1 |
| `Dashboard.HotTakeBlockMarkup` | app.py:297-307 | each hot-take block holds the template's markup and no more |
| `Dashboard.HotTakesMarkup` | app.py:293-307 | the hot-takes fragment holds `len(hot_takes)` blocks' worth of template markup and nothing else |
| `Dashboard.HotTakeNumbered` | app.py:296-303 | block i's title opens with a number that reads back as i+1 |
| `Dashboard.DraftList` | app.py:311 | `data.get('drafts', [])`: a missing key reads as no drafts |
| `Dashboard.DraftLabel` | app.py:313-315 | the label of draft `i`: the cleaned subject of hot take `i` when `i < len(hot_list)`, else `Email Response` |
| `Dashboard.DraftBlock` | app.py:317-322 | the draft f-string with the label in quotes and `clean_text(d)` inside the draft block |
| `Dashboard.DraftBlocks` | app.py:312-322 | the blocks the `enumerate` loop appends, one per draft in order, draft i labelled by `DraftLabel` |
| `Dashboard.DraftsHtml` | app.py:309-322 | the `+=` loop builds exactly one block per draft, labelled by hot take i's cleaned subject when it exists, else `Email Response` |
| `Dashboard.DraftBlockMarkup` | app.py:312-322 | each draft block holds the template's markup and no more |
| `Dashboard.DraftsMarkup` | app.py:309-322 | the drafts fragment holds `len(drafts)` blocks' worth of template markup and nothing else, whichever list is longer |
| `Dashboard.DraftLabelsPadded` | app.py:312-315 | draft labels equal the reference zip-with-default: the hot-take subjects cut to the number of drafts, padded with `Email Response` |
| `Dashboard.DraftsIgnoreSurplusHotTakes` | app.py:313-315 | hot takes beyond the number of drafts are never read |
| `Dashboard.ThreeHotTakesFiveDrafts` | app.py:309-322 | with 3 hot takes and 5 drafts, drafts 0-2 take the subjects and drafts 3-4 the placeholder |
| `Dashboard.TemplatesHaveMarkup` | app.py:302-322 | the hot-take and draft templates each carry at least one tag, so the markup counts above fix the number of blocks |
| `Dashboard.RenderAsWritten` | app.py:281-322 | the five fragments exactly as app.py builds them; the hot-takes and drafts fragments hold only template markup, and so does the traffic panel when every counter is an integer or missing |
| `Dashboard.Render` | app.py:281-322 | the corrected program of the finding below: the same fragments with the traffic counters escaped, so all three of those fragments hold only template markup |

## Findings

| source | as written | input that shows it | evidently intended | confidence | as-written member | corrected member |
|---|---|---|---|---|---|---|
| app.py:291 | the traffic counters go into the panel's f-string without `clean_text` or `html.escape` | a briefing whose `traffic.total` is the string `<script>`: the tag reaches the page raw | escape every model-derived value, as the code does for every other field. `html.escape(str(v))` is the fix, not `clean_text`, which turns `0` into `""` | medium (the model is asked for integers); not executed | `Dashboard.TrafficInjectionAsWritten` (on `TrafficHtmlAsWritten`) | `Dashboard.TrafficMarkup` (on `TrafficHtml`, which `Render` uses) |

`Dashboard.TrafficIntegersUnchanged` shows that the fix changes nothing for
integer counters.

Every other model-derived field goes through `clean_text` (app.py:282,
app.py:286, app.py:297-300, app.py:315-317), and its docstring names the purpose: keeping markup in
email text from breaking the page (app.py:207). The traffic counters are
the one exception. `Dashboard.RenderAsWritten` models the code as it is.
`Dashboard.Render` is the corrected program.

The reply is only parsed with `json.loads` (app.py:246); nothing checks
its shape. Missing keys take the defaults modelled here. Values of the
wrong shape are not modelled (see below).

## Left out

- Streamlit page setup, CSS, banner, button, columns and `st.markdown`
  calls (app.py:12-164, 254-257, 324-345): UI through a library not modelled.
- OAuth in `get_gmail_service` (app.py:169-186): file I/O and a foreign
  auth library.
- The Gmail `list`/`get` network calls (app.py:190, 197): they become the
  `Option<seq<Fetch>>` input.
- Exceptions inside the fetch loop: any exception the loop body can raise
  is folded into `FetchFailed`. That covers network errors, a missing `id`,
  and a header entry without `name` or `value`. Only a missing
  `payload.headers` list is modelled separately.
- The OpenAI client, the system instruction, the completion call,
  `json.loads` and its `except` branch (app.py:214-249): network and a
  foreign parser. The dashboard takes the already parsed record.
- The "top 5" limits and draft wording asked of the model (app.py:221-230):
  the code does not enforce them.
- Secrets lookup, `st.stop`/`st.error`, the "No emails found." notice and
  the `if data:` check (app.py:261-277): process configuration and UI
  flow. An empty `{}` reply is not rendered because of `if data:`; this
  is not modelled.
- JSON floats, arrays and objects as field values: their `str()` forms
  are not modelled.
- Values of a shape other than the one the prompt asks for are not
  modelled. The record types assume lists under `schedule`, `actions`,
  `hot_takes` and `drafts`, an object under `traffic`, and objects as
  hot-take entries. The source handles such values in different ways. A
  JSON `null` or a number makes it raise. A string or an object under
  `schedule`, `actions` or `drafts` gets iterated: one bullet or draft
  block per character or key.
- `Html.Unescape` decodes only the five entities `html.escape` produces.
  It is the partner of the escape, not a model of `html.unescape`.
- `Text.Split` models `str.split` only for a non-empty separator, the
  only kind the model needs.

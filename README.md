# Brief book generation: a Dafny model

This project models the two pieces of the chatbot that hold control logic
rather than UI or configuration.

- **The brief document handler** (`artifacts/brief/server.ts`).
  - `onCreateDocument` resolves the user's Google account and lists their calendars.
  - It fetches each calendar's events for the requested range and groups them per calendar.
  - It composes a Markdown "brief book" system prompt, streams the model's answer to the UI and returns the draft.
  - Every failure is reported on the stream as a transient notice.
  - `onUpdateDocument` streams a revision with the same accumulator.
- **The create-document tool** (`lib/ai/tools/create-document.ts`). Its `execute` announces the new document on the UI stream. It then picks the first registered handler of the requested kind, runs it and writes `data-finish`.

Every external call is an input. The account table, the calendar list, the event lists and the language model are fields of `Brief.Services`. Each is a function of the arguments the code passes it. A handler call is therefore a deterministic function of those answers. Each operation appears twice:

- a specification function (`Brief.CreateBrief`, `Brief.UpdateBrief`, `CreateDocumentTool.ExecuteSpec`) that gives the writes made to the UI stream in order, the external calls made in order, and the returned value or the throw;
- an imperative method (`Brief.OnCreateDocument`, with its `try` block `Brief.TryCalendarBrief`; `Brief.OnUpdateDocument`; `CreateDocumentTool.Execute`) that does the same work step by step against `DocumentStream.DataStream`, an append-only log of stream parts. Each method is proved to match its function.

The properties are lemmas about the functions.

Modules:

- `Values`: options, outcomes, JavaScript `||` and `Array.prototype.join`.
- `DocumentStream`: stream parts, the stream writer and model deltas.
- `Accumulator`: the `for await` loop over deltas.
- `Auth`: the session and the account row.
- `Calendar`: the calendar values.
- `BriefPrompt`: the system prompt.
- `Brief`: both handler callbacks.
- `CreateDocumentTool`: `execute`.

The system prompt keeps a JavaScript quirk. The per-calendar sections are an array interpolated into a template literal, so they are joined with `","`. `BriefPrompt.SectionInPrompt` states where that comma stands.

Not every failure is caught. `onCreateDocument` catches every throw, but `onUpdateDocument` has no `catch`, and `execute` throws when no handler matches. The model follows the code: `Brief.UpdateBrief` and `CreateDocumentTool.ExecuteSpec` can end in `Threw`.

## Model

| member | source | states |
|---|---|---|
| `Accumulator.ForwardDeltas` | artifacts/brief/server.ts:99-113 | Each text delta is appended to the stream in order. The result is the concatenated texts when the stream completes, or the stream's throw, which discards the draft but keeps the writes. |
| `Accumulator.TextsOfAppend` | artifacts/brief/server.ts:99-113 | Collected texts follow stream order: the texts of a concatenated stream are the texts of each part, in turn. |
| `Accumulator.NonTextIgnored` | artifacts/brief/server.ts:100-102 | Inserting a non-text delta anywhere changes neither the writes nor the draft. |
| `Accumulator.ConcatAppend` | artifacts/brief/server.ts:105 | The draft built by `+=` distributes over splitting the text sequence. |
| `Accumulator.TextWritesAt` | artifacts/brief/server.ts:107-111 | There is one write per text, and the k-th write carries the k-th text verbatim. |
| `Accumulator.TextWritesAreTextDeltas` | artifacts/brief/server.ts:107-111 | The loop writes only text-delta parts. |
| `Accumulator.ForwardExample` | artifacts/brief/server.ts:99-115 | Fragments "A", "B", "C" are forwarded in that order and the draft is "ABC". |
| `Values.JoinAt` | artifacts/brief/server.ts:93 | Every item of a JavaScript `join` stands verbatim at its computed offset. |
| `Values.JoinSeparatorAt` | artifacts/brief/server.ts:93 | The separator stands between consecutive items of a `join`. |
| `BriefPrompt.EventLineFallbacks` | artifacts/brief/server.ts:93 | An event line uses the summary if it is non-empty, else "(No title)". Its start is the date-time, else the date, else "". |
| `BriefPrompt.SectionInPrompt` | artifacts/brief/server.ts:93 | The prompt starts with the fixed preamble. Each calendar section stands verbatim at its place, and a "," separates consecutive sections. |
| `BriefPrompt.EventInPrompt` | artifacts/brief/server.ts:93 | The prompt holds every event's line, inside its calendar's section, after the `### label` heading. |
| `BriefPrompt.EventsInOrder` | artifacts/brief/server.ts:93 | Lines appear in group order and, within a group, in event order. |
| `BriefPrompt.SingleGroupPrompt` | artifacts/brief/server.ts:93 | With one calendar there is no comma: preamble, heading, then lines joined by newlines. |
| `Brief.CollectGroups` | artifacts/brief/server.ts:66-81 | The loop over calendars produces exactly the groups, or the throw, and the event fetches given by `Collect`. |
| `Brief.CollectStaysThrown` | artifacts/brief/server.ts:66-81 | After a fetch throws, later calendars change nothing: the loop is abandoned. |
| `Brief.CollectAppend` | artifacts/brief/server.ts:66-81 | The calendars are processed independently and in list order. The outcome for a split list is the outcome for its first part followed by that for its second. |
| `Brief.CollectSingle` | artifacts/brief/server.ts:67-80 | A calendar without an id is skipped with no fetch. Otherwise one fetch is made, and it ends in a throw, in nothing for absent or empty events, or in one group labelled with the summary if it is non-empty, else with the id. |
| `Brief.CollectedGroupsWellFormed` | artifacts/brief/server.ts:75-80 | Every kept group has a non-empty label and at least one event, and there are no more groups than calendars. |
| `Brief.CollectSucceedsIff` | artifacts/brief/server.ts:66-81 | The loop completes if and only if no fetch for a calendar with an id throws. |
| `Brief.CollectEmptyIff` | artifacts/brief/server.ts:75-82 | No group survives if and only if every calendar with an id returned absent or empty events without throwing. |
| `Brief.CollectedGroupAt` | artifacts/brief/server.ts:66-81 | When a calendar with an id returns events, its group stands at the index equal to the number of groups kept before it. The group holds those events under `summary || id`. |
| `Brief.CollectedGroupsInOrder` | artifacts/brief/server.ts:66-81 | Kept groups follow calendar-list order: an earlier calendar with events gets a smaller group index. |
| `Brief.FetchedEventInPrompt` | artifacts/brief/server.ts:66-93 | Every event a calendar returned has its line in the model's system prompt, inside the section that opens with that calendar's `### label` heading: it starts after the heading and ends within that section. |
| `Brief.FetchedEventsInOrder` | artifacts/brief/server.ts:66-93 | In the system prompt, event lines follow calendar-list order and, within a calendar, the order the calendar API returned. |
| `Brief.CollectCalls` | artifacts/brief/server.ts:66-74 | A completed loop fetches every calendar with an id, in order, with the caller's `timeMin` and `timeMax`. A loop that threw made the throwing fetch last. |
| `Brief.CreateBrief` | artifacts/brief/server.ts:12-127 | `onCreateDocument` never throws, and its first external call is the account lookup for the session's user and "google". A non-empty result only follows a model call whose prompt is the title. |
| `Brief.StreamBrief` | artifacts/brief/server.ts:89-115 | The drafting step calls the model once with the composed system prompt and the title, appends exactly one text write per text delta, and returns the concatenation or the stream's throw. |
| `Brief.TryCalendarBrief` | artifacts/brief/server.ts:48-124 | The `try` block with its `catch` appends exactly `FetchAndDraft`'s writes, returns its result and makes its calls. |
| `Brief.OnCreateDocument` | artifacts/brief/server.ts:12-127 | The step-by-step handler appends exactly `CreateBrief`'s writes to the stream, returns its result and makes its calls. |
| `Brief.NoCredentials` | artifacts/brief/server.ts:19-46 | If the lookup throws or finds no row, only the lookup is called and the result is "". A throwing lookup writes the account error and then "No Google account connected." Otherwise only the latter is written. |
| `Brief.CalendarFailure` | artifacts/brief/server.ts:59-74 | With credentials, a failing calendar list or event fetch writes exactly one calendar-error notice with its message and returns "". The model is not called. |
| `Brief.NoEventsFound` | artifacts/brief/server.ts:82-87 | With no surviving group, the only write is "No events found for today.", the model is not called and the result is "". |
| `Brief.NoEventsWhenNoCalendarHasEvents` | artifacts/brief/server.ts:66-87 | If every calendar with an id returns absent or empty events, the request ends with the "no events" notice and "". |
| `Brief.Drafting` | artifacts/brief/server.ts:89-126 | With groups, the model is called once and last, with the composed system prompt and the title. A completed stream forwards each text in order, writes nothing else and returns the concatenation. A throwing stream keeps the forwarded texts, adds one calendar-error notice and returns "". |
| `Brief.EmptyUnlessDrafted` | artifacts/brief/server.ts:115-126 | The result is "" on every path except a completed model stream, whose concatenated texts it then is. |
| `Brief.OnUpdateDocument` | artifacts/brief/server.ts:128-163 | The step-by-step handler appends exactly `UpdateBrief`'s writes and returns its outcome. |
| `Brief.UpdateForwards` | artifacts/brief/server.ts:128-163 | `onUpdateDocument` calls the model once, with the update prompt and the description. It forwards each text delta and nothing else. It returns the concatenation, or propagates the stream's throw. |
| `CreateDocumentTool.FindHandler` | lib/ai/tools/create-document.ts:61-64 | The handler found is the first whose kind equals the requested kind. None is found if and only if no handler has that kind. |
| `CreateDocumentTool.Execute` | lib/ai/tools/create-document.ts:34-87 | The step-by-step `execute` appends exactly `ExecuteSpec`'s writes, resolves or throws as it says and invokes the handler it names. |
| `CreateDocumentTool.OpeningFirst` | lib/ai/tools/create-document.ts:37-59 | On every path, the first four writes are `data-kind`, `data-id`, `data-title` and `data-clear`, in that order. |
| `CreateDocumentTool.MissingHandler` | lib/ai/tools/create-document.ts:66-68 | With no handler of the kind, `execute` throws "No document handler found for kind: …" after exactly the four opening writes. No handler runs and `data-finish` is not written. |
| `CreateDocumentTool.HandlerCalledWithInput` | lib/ai/tools/create-document.ts:61-77 | The invoked handler is the first of the kind. It receives the id written in `data-id`, with the caller's title, session, `timeMin` and `timeMax` unchanged. |
| `CreateDocumentTool.FinishAfterHandler` | lib/ai/tools/create-document.ts:70-86 | If the handler completes, `data-finish` follows its writes and is last, and the result echoes id, title and kind with the fixed content. If the handler throws, the throw propagates and `execute` writes no `data-finish`. |
| `CreateDocumentTool.BriefThroughTool` | lib/ai/tools/create-document.ts:61-86 | Wherever the brief entry stands after handlers of other kinds, it is the one invoked, with the written id and the caller's input. The tool writes the four opening parts, the brief handler's writes and the wrapper's save writes. If the save completes, it then writes `data-finish` and resolves to the fixed record; if the save throws, that throw propagates and `data-finish` is not written. |

## Left out

- The account query through drizzle is an input: the rows it returns for the user and "google", or a throw.
- The Google OAuth2 client and the Calendar API are inputs. The model does not contain the refresh token's use, time-range filtering, recurrence expansion or ordering by start time.
- Event answers are a function of the calendar id and the range, so two list entries with the same id receive the same answer.
- `streamText`, the word-chunking `smoothStream` transform and the model choice are inputs: the delta sequence that the model returns for a system prompt and a prompt. The OpenAI `prediction` option of `onUpdateDocument`, which carries the current content, is not represented.
- `updateDocumentPrompt` (lib/ai/prompts) is not part of this model; it is a function parameter. `generateUUID` (lib/utils) is not part of this model; the id is a parameter.
- The handler registry (lib/artifacts/server) is not part of this model. It is a list parameter.
- `CreateDocumentTool.BriefThroughTool`: the brief entry is `createDocumentHandler` (lib/artifacts/server) wrapped around the brief callbacks. That wrapper is not part of this model, so it is reduced to an abstract save step on the returned draft (`SaveStep`: its writes and an optional throw). The model assumes the wrapper runs `onCreateDocument` first, passes the tool's arguments through, and writes nothing before the callback.
- The zod input schema and the tool-calling framework are library plumbing.
- `console.error` logging is left out.
- Every part the code writes carries `transient: true`. The flag is not represented.
- Thrown values are represented by the message the code renders from them (`err.message` or `String(err)`).
- The session is reduced to the user id.
- `CreateDocumentTool.Execute` appends the handler's writes as one block once the handler returns. `execute` writes nothing while the handler runs, so the order of the log is the same.
- Asynchrony is modelled as sequential execution. Each `await` completes, or throws, before the next step.
- lib/ai/providers.ts, lib/constants.ts, app/privacy/page.tsx, components/suggested-actions.tsx and the authentication pages are configuration and UI. They are not part of this model.

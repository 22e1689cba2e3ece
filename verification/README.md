# SolidWorks MCP server — a Dafny model of its own logic

The server exposes four SolidWorks operations (open a document, read a
model's properties, create a new part, export to PDF) as tools of the Model
Context Protocol. Two deployments exist: a stdio server (`src/index.ts`) and
a set of HTTP tool descriptors (`solidworks-tools.ts`). Both forward every
call to one backend adapter, `SolidWorksAPI` (`solidworks-api.ts`).

This project models the parts of that code that belong to the repository:

- `SolidWorks` (solidworks_api.dfy): the adapter as a class with its
  `connected` flag. The lazy reconnect-on-use guard calls `connect()` only
  when the flag is down and ignores what it returns. The module also holds
  the values the operations build: the property bag, named by the last `/`
  segment of the path, and the temporary part path stamped with the clock.
  Whether the automation bridge throws is a parameter of each call:
  `bridgeFails` for the body of `connect()`, and `fault` for the body of the
  operation. The stub bodies never throw, but both branches are modelled.
  Ghost fields count the `connect()` attempts and record every operation
  called, with its arguments.
  A pure state function, `Run`, gives the flag and the attempt count over a
  whole sequence of operations. `ServeInOrder` proves that the adapter's
  methods follow it when operations are served one at a time, as the
  server does.
- `StdioServer` (stdio_server.dfy): the four tool declarations and the four
  handler bodies. Each handler turns a backend outcome into a response with
  one text block, and sets `isError` only where it catches a throw.
- `HttpTools` (http_tools.dfy): the four descriptors' parameter lists and
  the `execute` bodies that build `{success, message, ...}` records.
- `Deployments` (deployments.dfy): wherever an HTTP record carries a
  message, it is the text of the stdio response for the same outcome. A
  successful `get_model_properties` record carries the bag and no message.
  Both deployments declare the same parameters.
- `Text` (text.dfy): `split('/')`, its inverse `join`, `pop()` of the split,
  the decimal rendering of a timestamp, and prefix stripping. Prefix
  stripping is how the contracts read a message back.
- `Schema` (schema.dfy) and `Optional` (optional.dfy): shared vocabulary.

An awaited call that throws becomes `Outcome.Threw(e)`. A thrown value is an
`Error` object or some other value: `ErrorText` is the source's
`error instanceof Error ? error.message : String(error)`. `JSON.stringify` is
a function parameter `serialise`. `Date.now()` is a parameter `now`. A
response field that the source leaves out is `None`.

## Model

| member | source | states |
|---|---|---|
| `Text.Split` | solidworks-api.ts:60 | `split('/')` yields at least one piece, no piece holds '/', and joining the pieces with '/' gives the input back |
| `Text.SplitJoin` | solidworks-api.ts:60 | the other round trip: splitting a '/'-join of '/'-free pieces gives those pieces back |
| `Text.LastSegment` | solidworks-api.ts:60 | `split('/').pop()` is a '/'-free suffix of the path that is the whole path or is preceded by '/' |
| `Text.LastSegmentUnique` | src/index.ts:50 | those three properties determine the last segment uniquely |
| `Text.Decimal` | solidworks-api.ts:82 | the rendered timestamp is a non-empty string of digits with no leading zero unless it is 0 |
| `Text.DecimalRoundTrip` | solidworks-api.ts:82 | reading the rendered digits gives the timestamp back |
| `Text.DecimalInjective` | solidworks-api.ts:82 | distinct timestamps render as distinct texts |
| `SolidWorks.ModelPropertiesByName` | solidworks-api.ts:59-68 | the bag's `name` is the path's last segment, which holds no '/'; two paths give equal bags exactly when their last segments agree, so repeated calls with one path return equal bags |
| `SolidWorks.TempPartPath` | solidworks-api.ts:82 | the temporary part path starts with `C:/Temp/NewPart_` and ends with `.SLDPRT`, with something between |
| `SolidWorks.PartStampRoundTrip` | solidworks-api.ts:82 | the timestamp can be read back out of the path built from it |
| `SolidWorks.TempPartPathInjective` | solidworks-api.ts:82 | parts created at distinct instants get distinct paths |
| `SolidWorks.GuardTransitions` | solidworks-api.ts:38 | the guard makes no `connect()` call and keeps the flag when connected; when disconnected it makes exactly one, and the flag ends up raised exactly when that attempt succeeds |
| `SolidWorks.RunFromConnected` | solidworks-api.ts:29-38 | once connected, any sequence of operations leaves the adapter connected and makes no further `connect()` call |
| `SolidWorks.RunFromDisconnected` | solidworks-api.ts:19-38 | from disconnected, a sequence of operations makes one attempt per operation up to and including the first that succeeds, and none after it; the adapter ends connected exactly when some attempt succeeded |
| `SolidWorks.ServeInOrder` | solidworks-api.ts:37-102 | operations served one after another on one adapter leave its flag and `connect()` count as `Run` gives them, and log each operation once, in order |
| `SolidWorks.SolidWorksAPI.constructor` | solidworks-api.ts:11-17 | a new adapter is disconnected and has made no calls |
| `SolidWorks.SolidWorksAPI.Connect` | solidworks-api.ts:19-35 | `connect()` returns true and raises the flag unless its body throws; then it returns false and leaves the flag unchanged |
| `SolidWorks.SolidWorksAPI.Guard` | solidworks-api.ts:38 | calls `connect()` once if disconnected and never if connected, and ignores its result |
| `SolidWorks.SolidWorksAPI.OpenDocument` | solidworks-api.ts:37-49 | one guarded call that returns true unless the body throws, and then false; it never throws |
| `SolidWorks.SolidWorksAPI.GetModelProperties` | solidworks-api.ts:51-73 | one guarded call that returns the simulated property bag for the path, or rethrows what the body throws |
| `SolidWorks.SolidWorksAPI.CreateNewPart` | solidworks-api.ts:75-89 | one guarded call that returns the temporary part path carrying the clock reading, or rethrows what the body throws |
| `SolidWorks.SolidWorksAPI.ExportToPdf` | solidworks-api.ts:91-102 | one guarded call that returns true unless the body throws, and then false; it never throws |
| `Schema.RequiredStrings` | solidworks-tools.ts:9-14 | a name occurs in the list exactly when some declared parameter with that name is a required string |
| `Schema.RequiredStringsAppend` | solidworks-tools.ts:81-94 | the required string names of consecutive declarations are those of each part, in order, so the list follows declaration order |
| `Schema.RequiredStringsSingle` | solidworks-tools.ts:9-14 | one parameter contributes its name exactly once when it is a required string, and nothing otherwise |
| `StdioServer.TextResponse` | src/index.ts:22-31 | a success response has one content block, of type "text", and no `isError` |
| `StdioServer.ErrorResponse` | src/index.ts:55-63 | an error response has one content block, of type "text", and `isError: true` |
| `StdioServer.DeclaredTools` | src/index.ts:13-106 | the four stdio tools have distinct names; `open_document` and `get_model_properties` take one required string `filePath`, `create_new_part` takes none, and `export_to_pdf` takes `filePath` then `outputPath` |
| `StdioServer.OpenDocumentResponse` | src/index.ts:22-31 | one text block and no `isError`; the backend's answer and the file path can both be read back from the text |
| `StdioServer.ModelPropertiesResponse` | src/index.ts:43-64 | one text block; a returned bag gives the path's last segment and the serialised bag without `isError`; a throw gives `isError: true` and the thrown message after `Error getting model properties: `; the two texts are told apart by that prefix |
| `StdioServer.NewPartResponse` | src/index.ts:74-95 | one text block; the created path can be read back after `Created new part at ` exactly on success; a throw gives `isError: true` and the message after `Error creating new part: ` |
| `StdioServer.ExportResponse` | src/index.ts:110-119 | one text block and no `isError`; the text starts with `Successfully exported to PDF: ` followed by the output path exactly on success, and is exactly `Failed to export to PDF` otherwise |
| `StdioServer.HandleOpenDocument` | src/index.ts:19-32 | makes exactly one backend call, `openDocument` with the same path, and answers with that call's response |
| `StdioServer.HandleModelProperties` | src/index.ts:42-65 | makes exactly one backend call, `getModelProperties` with the same path, and answers with that call's response, catching a throw |
| `StdioServer.HandleNewPart` | src/index.ts:73-96 | makes exactly one backend call, `createNewPart`; on success the response names a path from which the clock reading can be read back |
| `StdioServer.HandleExport` | src/index.ts:107-120 | makes exactly one backend call, `exportToPDF` with both paths unchanged, and answers with that call's response |
| `HttpTools.DeclaredTools` | solidworks-tools.ts:5-94 | the four descriptors have distinct names; `open_solidworks_document` and `get_model_properties` declare exactly one required string `filePath`, `create_new_part` declares none, and `export_to_pdf` declares `filePath` then `outputPath` |
| `HttpTools.OpenDocumentResult` | solidworks-tools.ts:18-23 | `success` is the backend's answer; the message starts with the success prefix exactly when it is true, and the file path follows either prefix |
| `HttpTools.ModelPropertiesResult` | solidworks-tools.ts:40-51 | on success the backend's bag is passed on unchanged with no message; on a throw there is no bag, `success` is false and the message is the thrown message after `Error getting model properties: ` |
| `HttpTools.NewPartResult` | solidworks-tools.ts:61-73 | `filePath` is present exactly on success and is the backend's path, read back from the message after `Created new part at `; a throw gives `success` false and the prefixed thrown message |
| `HttpTools.ExportResult` | solidworks-tools.ts:101-106 | `success` is the backend's answer; the message carries the output path after the success prefix exactly when it is true, and is `Failed to export to PDF` otherwise |
| `HttpTools.ExecuteOpenDocument` | solidworks-tools.ts:16-24 | makes exactly one backend call, `openDocument` with the same path, and returns that call's record |
| `HttpTools.ExecuteModelProperties` | solidworks-tools.ts:39-52 | makes exactly one backend call, `getModelProperties` with the same path, and returns that call's record, catching a throw |
| `HttpTools.ExecuteNewPart` | solidworks-tools.ts:60-74 | makes exactly one backend call, `createNewPart`, and returns that call's record, catching a throw |
| `HttpTools.ExecuteExport` | solidworks-tools.ts:95-107 | makes exactly one backend call, `exportToPDF` with both paths unchanged, and returns that call's record |
| `Deployments.SameMessages` | solidworks-tools.ts:20-22 | for opening, creating and exporting, the HTTP message is the text of the stdio response for the same outcome |
| `Deployments.SameModelPropertiesError` | solidworks-tools.ts:46-50 | the HTTP `success` is false exactly where the stdio response sets `isError`, and a failure carries the same text in both |
| `Deployments.SameParameters` | solidworks-tools.ts:8-94 | corresponding tools of the two deployments declare identical parameter lists; only the open-document tool is named differently |

## Left out

- Transport framing, JSON-RPC routing, tool registration and argument validation are done by the MCP SDK and zod. That code is not part of this repository, so unknown-tool and missing-parameter errors are not modelled.
- server-code.ts is not part of this model: it holds Express wiring, SDK registration calls, a status resource stamped with the wall clock, and a health endpoint.
- src/configure-claude.ts, test-client.ts and src/test-client.ts are not part of this model: they do file-system writes, process spawning and network I/O.
- `main()` in src/index.ts (startup connect, transport connection, `process.exit`) is I/O; its startup `connect()` is `SolidWorksAPI.Connect` itself.
- `async`/`await` become plain sequential calls: nothing runs concurrently within one connection. Serialising concurrent connect attempts in the HTTP deployment is not implemented by the source and is not modelled.
- `console.log`/`console.error` output is dropped. The never-used `swApp` field (always `null`) and the commented-out COM calls are not modelled.
- The automation bridge is not modelled. Whether a body throws is an input of each call (`bridgeFails`, `fault`), and what it would throw is an arbitrary `Thrown` value.
- `JSON.stringify(properties, null, 2)` is an uninterpreted parameter `serialise`, so the serialised text is not modelled.
- `Text.Decimal`: `now` is rendered in plain decimal for every value. JavaScript switches to exponent notation from 10^21, a value `Date.now()` does not reach. A negative clock reading is not representable.
- The HTTP records' `success` field is a `bool` on every branch by its type, so no separate member states it.
- `isError` absent and `isError: false` are not told apart beyond `None`: the source never writes `false`.

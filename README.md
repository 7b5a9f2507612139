# PostgreSQL protocol server — a Dafny model

This project models the core of a small Model Context Protocol server that
exposes a PostgreSQL database: `resources/list` lists one resource per table;
`resources/read` resolves a resource URI to its table and schema and looks up
the columns; `tools/call` runs the one tool, `query`, issuing
`BEGIN TRANSACTION READ ONLY` before the user's statement and `ROLLBACK`
after it; `tools/list`, `prompts/list` and
`prompts/get` return fixed catalogs. Everything is in `src/index.ts`.

There are two parts.

- **Resource URIs** (pure; `paths.dfy`, `resource_uri.dfy`). A listed resource's
  URI comes from resolving the relative reference `<table>/schema/<schema>`
  against the server's base URL. The read handler splits the URI's pathname
  at `/`. It pops the schema name, then the marker, then the table name, and
  rejects the URI unless the marker is `schema`. `Split`, `Join` and `Pop` model
  JavaScript's `split`, `join` and `pop`, including `pop` on an empty array,
  which gives `undefined` (here `None`). A URL is abstracted to an origin
  string plus a path: either a list of segments or the text of an opaque path.
  Resolving a path-relative reference drops the last base segment and
  appends the reference split at `/`. Three other kinds of reference behave
  differently:
  - One that starts with a scheme and `:` (a table named `a:b`, say) is an
    absolute URL, and the base is ignored.
  - One that starts with a single `/` (the empty table name) replaces the
    whole base path.
  - One that starts with `//` (a table named `//h`) takes a new host `h`, and
    the constructor throws when the host parser rejects `h`.
- **Handlers and the connection pool** (imperative; `pool.dfy`, `server.dfy`).
  `Pool.ConnectionPool` records every step in `trace`: `Acquire`, then
  `Exec(statement, params, reply)` with the database's reply, then `Release`.
  It also counts the connections checked out in `held`. Whether `connect`
  succeeds, and what each statement returns, is chosen non-deterministically.
  `Server.Server` holds the pool and the resource base URL. Its handler methods
  state which events they append and how their result follows from the
  recorded replies. The lemmas beside them prove that every run is one
  session: nothing at all, or exactly one acquire first and exactly one
  release last. They also prove that early faults acquire nothing, and that
  the query tool orders BEGIN READ ONLY → statement → ROLLBACK → release.
- The catalogs (`catalog.dfy`) are constants.

The resource URI round trip holds only for table and schema names without
`/` and for table names that do not start with a scheme-like prefix.
`ResourceUri.ResourceUriRoundTrip` carries that precondition.
`SlashInTableMisreads`, `SlashInSchemaUnreadable` and `SchemeInTableMisreads`
show what goes wrong without it: a wrong table is looked up, or the read
handler throws.
Resolution therefore inverts construction only on such names, not on all of
them. The source contains table-level URIs only, and that is the variant
modelled here. In the query tool the ROLLBACK is issued but not awaited
before `release()`. The model states that it is issued before the release,
not that it completes first.

## Model

| member | source | states |
|---|---|---|
| `Paths.Split` | src/index.ts:115 | `pathname.split("/")` gives at least one piece; no piece holds `/`; joining the pieces with `/` gives back the pathname |
| `Paths.Pop` | src/index.ts:116-118 | `pop()` on an empty array gives `undefined` and leaves it empty; otherwise it gives the last element and leaves the rest |
| `Paths.SplitJoin` | src/index.ts:115 | splitting the join of `/`-free segments gives back exactly those segments |
| `Paths.SplitAppend` | src/index.ts:115 | splitting `x + "/" + y` gives the pieces of `x` followed by the pieces of `y` |
| `ResourceUri.Resolve` | src/index.ts:100 | `new URL(reference, base)` throws exactly when the reference has no scheme and either the base path is opaque or the reference starts with `//` and names a host the parser rejects; a reference starting with a single `/` keeps the base origin and replaces the whole path; a path-relative reference keeps the base origin, and its path ends with the reference's `/`-separated segments after the base path minus its last segment |
| `ResourceUri.SchemeEnd` | src/index.ts:100 | a reference is read as absolute when it starts with a scheme (an ASCII letter, then letters, digits, `+`, `-`, `.`) followed by `:`; the index of that `:` is returned |
| `ResourceUri.SchemeEndFinds` | src/index.ts:100 | conversely, every scheme followed by `:` at the start of the reference is found |
| `ResourceUri.SchemeLikeReference` | src/index.ts:100 | the reference `<table>/schema/<schema>` starts with a scheme exactly when the table name does |
| `ResourceUri.Pathname` | src/index.ts:115 | the pathname of a non-empty hierarchical path starts with `/`; that of an empty one is empty |
| `ResourceUri.PathnameSplit` | src/index.ts:115 | splitting the pathname of `/`-free segments at `/` gives `""` followed by those segments |
| `ResourceUri.ParseResourcePath` | src/index.ts:115-122 | the read handler's parse of a pathname; a success always carries a schema name, a failure is "Invalid resource URI" |
| `ResourceUri.TableResource` | src/index.ts:99-104 | a listed resource exists exactly when the table name starts with a scheme, or the base URL has a hierarchical path and the reference names no host the parser rejects; its URI is the resolved `<table>/schema/<schema>` and its MIME type is `application/json` |
| `ResourceUri.ResourceUrlShape` | src/index.ts:100 | for names without `/` and a non-empty table name without a scheme-like prefix, the resource URI's path is the base path minus its last segment followed by `[table, "schema", schema]` |
| `ResourceUri.EmptyTableUrlShape` | src/index.ts:100 | for the empty table name, the resource URI keeps the base origin and its path is exactly `["schema", schema]` |
| `ResourceUri.RejectedHostInTable` | src/index.ts:100 | a table name `//h`, where `h` has no `/` and holds a code point the host parser rejects (a space, say), gets no resource URI whatever the base, so the list handler throws |
| `ResourceUri.ReferenceAuthority` | src/index.ts:100 | the reference built for a table `//h` starts with `//` and names the authority `h` |
| `ResourceUri.ParsePathComponents` | src/index.ts:116-122 | succeeds exactly when there are at least two path components and the second-to-last is `schema`; then the schema name is the last component and the table name is the third-to-last, or `undefined` when there are only two; otherwise it fails with "Invalid resource URI" |
| `ResourceUri.ParseIgnoresPrefix` | src/index.ts:115-118 | whatever text comes before `/<table>/schema/<schema>`, parsing yields that table and schema |
| `ResourceUri.ResourceUriRoundTrip` | src/index.ts:100-122 | for names without `/` and a table name without a scheme-like prefix, parsing the path of the URI built for (table, schema) passes the marker check and yields exactly that table and schema |
| `ResourceUri.SlashInTableMisreads` | src/index.ts:115-118 | a table name `a/b` is read back as table `b`, not `a/b` |
| `ResourceUri.SlashInSchemaUnreadable` | src/index.ts:120-122 | a schema name `a/b` with `a` not `schema` makes the listed URI fail with "Invalid resource URI" |
| `ResourceUri.SchemeReferenceSplits` | src/index.ts:100 | the reference built for a table `s:h` is read as scheme `s` followed by `h/schema/<schema>` |
| `ResourceUri.SchemeInTableMisreads` | src/index.ts:100-118 | a table name `s:h`, with `s` a non-special scheme and `h` free of `/`, resolves to the opaque URL `s:h/schema/<schema>` whatever the base, and is read back as table `h` |
| `Catalog.ToolCatalogShape` | src/index.ts:150-165 | exactly one tool is listed; it is named `query` and takes one string property `sql` |
| `Catalog.ListedToolsAreKnown` | src/index.ts:150-169 | a name is accepted by `tools/call` exactly when a listed tool has that name |
| `Catalog.PromptCatalogShape` | src/index.ts:62-88 | exactly one prompt, `schema-addition`, is listed, and `prompts/get` answers every name as it answers that one |
| `Pool.OutstandingAppend` | src/index.ts:92-107 | replaying a trace made of two parts replays the first part, then the second part from where the first one stopped |
| `Pool.OutstandingCounts` | src/index.ts:92-107 | on a trace that replays cleanly, the connections held at the start plus the acquires equal the connections held at the end plus the releases |
| `Pool.ValidPoolBalance` | src/index.ts:92-107 | in a valid pool, the connections acquired over the whole trace equal the connections held now plus those released |
| `Pool.SessionBalanced` | src/index.ts:172-189 | a session leaves the number of held connections unchanged; a non-empty session acquires once and releases once |
| `Pool.ConnectionPool.Connect` | src/index.ts:92 | on success one `Acquire` is appended and one more connection is held; on failure nothing changes |
| `Pool.ConnectionPool.Query` | src/index.ts:94-97 | one `Exec` with the statement, its parameters and the database's reply is appended; the held count is unchanged |
| `Pool.ConnectionPool.Release` | src/index.ts:107 | one `Release` is appended and one connection fewer is held |
| `Server.ListedResources` | src/index.ts:99-105 | one resource per row, in order, built from the row's `name` and `schema`; the mapping fails, with the URL constructor's error, exactly when some row's URI cannot be resolved |
| `Server.ListResult` | src/index.ts:98-105 | a failed catalog query is rethrown unchanged; otherwise the only possible error is the URL constructor's, and a success has one resource per row |
| `Server.QueryToolEvents` | src/index.ts:172-189 | once connected, the query tool records five events when BEGIN succeeds and four when it fails; it starts with the acquire and ends with ROLLBACK followed by the release |
| `Server.QueryToolResult` | src/index.ts:174-181 | the result is success exactly when BEGIN and the statement both succeed, carrying the statement's rows with `isError` false; otherwise it is the first error, rethrown unchanged; the ROLLBACK reply plays no part |
| `Server.QueryToolOrder` | src/index.ts:172-189 | BEGIN READ ONLY is issued first; the user statement is issued only if BEGIN succeeded, and then exactly once; ROLLBACK is issued after it on both paths; then release; one acquire and one release |
| `Server.ListRunIsSession` | src/index.ts:91-109 | every run of the list handler acquires at most one connection, first, and releases it exactly once, last |
| `Server.ParsedReadRunIsSession` | src/index.ts:115-146 | every run of the read handler past the URL constructor is such a session, and a failed marker check acquires nothing and throws the parse error |
| `Server.CallToolRunIsSession` | src/index.ts:168-193 | every run of the tool handler is such a session, and an unknown tool name acquires nothing |
| `Server.UnknownToolReported` | src/index.ts:168-192 | a name other than `query` acquires nothing and fails with the message `Unknown tool: <name>` |
| `Server.ListedResourceResolves` | src/index.ts:99-122 | every resource listed for a row with `/`-free names and a table name without a scheme-like prefix has MIME type `application/json` and parses back to that row's table and schema |
| `Server.ReadOfListedResource` | src/index.ts:100-133 | for such a row, reading the listed resource never fails on its URI; the column lookup gets the listed table and schema as `$1` and `$2`, in that order, in a constant statement |
| `Server.Server.ListResources` | src/index.ts:91-109 | either the connect fails and nothing is appended, or Acquire → catalog query → Release is appended and the result comes from that query's reply; the held count is restored |
| `Server.Server.ReadResource` | src/index.ts:112-147 | a URL error or a failed marker check throws before anything is acquired; otherwise either the connect fails or Acquire → column lookup with `[tableName, schemaName]` → Release is appended, and the answer echoes the URI with the rows |
| `Server.Server.LookupColumns` | src/index.ts:124-146 | either the connect fails and nothing is appended, or Acquire → column lookup with `[tableName, schemaName]` → Release is appended, and the answer echoes the URI with the rows or rethrows the lookup's error |
| `Server.Server.CallTool` | src/index.ts:168-193 | a name other than `query` throws `Unknown tool: <name>` with nothing appended; otherwise it runs the query tool on `arguments.sql`; the held count is restored |
| `Server.Server.QueryTool` | src/index.ts:170-190 | either the connect fails and nothing is appended, or exactly the query tool's events are appended, and the result is `QueryToolResult` of the BEGIN and statement replies |

## Left out

- MCP SDK server, stdio transport, request schemas and message framing (src/index.ts:3-41, 195-204): a foreign library; handlers are modelled as plain methods.
- Startup (src/index.ts:43-57): the argument check, `process.exit`, and the creation of the pool. The pool and the resource base URL are constructor parameters of `Server.Server`.
- Derivation of the resource base URL (src/index.ts:51-53): it sets the scheme to `postgres:` and clears the password, keeping the user name. The model takes the base URL as given.
- WHATWG URL parsing and serialisation: percent-encoding, removal of `.`/`..` segments, query and fragment (`?`, `#`), and the `href` string. For a reference with a scheme, the authority is kept as one string: no host validation (which can make the constructor throw), no credentials or port, and no backslash or `file:` rules for special schemes. For a reference starting with `//`, the host is rejected only for the code points that always make the parser fail in the host of a URL whose scheme is not special: NUL, space, `<`, `>`, `\`, `^` and `|`. Credentials (`@`), a port (`:`) and IPv6 brackets (`[`, `]`) in such an authority are not parsed. The base URL's scheme is taken to be `postgres:`, which is not special. A `Resource` holds the URL value, not its `href`. The read handler receives both the request's URI text and the outcome of parsing it as inputs. The round trip is therefore proved only for names that such parsing leaves unchanged: names without `/` and table names without a scheme-like prefix in the model, and in practice also free of characters the URL parser encodes or normalises.
- The `pg` driver and the database: replies and connect failures are arbitrary. Row values are text, and SQL types and NULL are not modelled. What the driver does with a missing `sql` argument (`client.query(undefined)`) is not modelled beyond an arbitrary reply. Non-string `sql` values (the `as string` cast) are not modelled either.
- `JSON.stringify` formatting: answers carry the rows themselves instead of their JSON text.
- The effect of the user's statement on the transaction. The model records that BEGIN READ ONLY is issued before the statement and ROLLBACK after it. It cannot see a statement that itself ends the transaction, such as `COMMIT; DELETE ...` sent as one multi-statement query, so whether such a statement's effects persist is not modelled.
- `console.warn` when the ROLLBACK fails, and async scheduling. The ROLLBACK reply is recorded in the trace at the point where the statement is issued, even though it arrives later. Requests do not interleave in the model: each handler runs atomically.

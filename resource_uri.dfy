/**
 * Resource URIs: how the list handler builds one per table and how the read
 * handler takes one apart again.
 *
 * A URL is abstracted to its origin (scheme, credentials, host and port, kept
 * as one string) and its path. A hierarchical path is the list of segments
 * the URL parser produced; an opaque path (a URL such as `x:schema/s`) is kept
 * as its text. Percent-encoding and dot-segment removal are not modelled: the
 * parser is taken to keep every segment as written.
 */
module ResourceUri {
  import opened Wrappers
  import opened Paths
  import opened Faults

  /** The marker segment between the table name and the schema name. */
  const SchemaPath: string := "schema"

  /** MIME type of every listed resource and of every resource read. */
  const JsonMimeType: string := "application/json"

  datatype UrlPath = Segments(segments: seq<string>) | Opaque(text: string)

  datatype Url = Url(origin: string, path: UrlPath)

  /** The URL's `pathname`: "/" before each segment, or the opaque text. */
  function Pathname(path: UrlPath): (r: string)
    ensures path.Segments? && path.segments != [] ==> |r| > 0 && r[0] == '/'
    ensures path.Segments? && path.segments == [] ==> r == ""
  {
    match path
    case Segments(segments) => if segments == [] then "" else Join([""] + segments, '/')
    case Opaque(text) => text
  }

  /** The base path with its last segment removed, where a relative path is appended. */
  function Shorten(segments: seq<string>): seq<string>
  {
    if segments == [] then [] else segments[..|segments| - 1]
  }

  predicate IsAsciiAlpha(c: char)
  {
    'a' <= c <= 'z' || 'A' <= c <= 'Z'
  }

  /** A character that may follow the first letter of a URL scheme. */
  predicate IsSchemeChar(c: char)
  {
    IsAsciiAlpha(c) || '0' <= c <= '9' || c == '+' || c == '-' || c == '.'
  }

  /** A URL scheme: an ASCII letter followed by letters, digits, '+', '-' or '.'. */
  predicate IsScheme(name: string)
  {
    |name| > 0 && IsAsciiAlpha(name[0]) && forall j :: 0 < j < |name| ==> IsSchemeChar(name[j])
  }

  /**
   * The index of the ':' that ends a scheme at the start of `s`, if there is
   * one: the URL parser then reads `s` as an absolute URL.
   */
  function SchemeEnd(s: string): (r: Option<nat>)
    ensures r.Some? ==> r.value < |s| && s[r.value] == ':' && IsScheme(s[..r.value])
  {
    if |s| == 0 || !IsAsciiAlpha(s[0]) then None else SchemeEndFrom(s, 1)
  }

  /** The scan of `SchemeEnd` from index `i` on. */
  function SchemeEndFrom(s: string, i: nat): (r: Option<nat>)
    requires 0 < i <= |s|
    ensures r.Some? ==> i <= r.value < |s| && s[r.value] == ':'
    ensures r.Some? ==> forall j :: i <= j < r.value ==> IsSchemeChar(s[j])
    decreases |s| - i
  {
    if i == |s| then None
    else if s[i] == ':' then Some(i)
    else if IsSchemeChar(s[i]) then SchemeEndFrom(s, i + 1)
    else None
  }

  /** `s` starts with a scheme and a ':'. */
  predicate SchemeLike(s: string)
  {
    SchemeEnd(s).Some?
  }

  /** Conversely, a scheme followed by ':' is found by `SchemeEnd`. */
  lemma {:induction false} SchemeEndFinds(s: string, k: nat)
    requires k < |s| && s[k] == ':' && IsScheme(s[..k])
    ensures SchemeEnd(s) == Some(k)
  {
    assert s[0] == s[..k][0];
    SchemeEndFromFinds(s, 1, k);
  }

  lemma {:induction false} SchemeEndFromFinds(s: string, i: nat, k: nat)
    requires 0 < i <= k < |s| && s[k] == ':' && IsScheme(s[..k])
    ensures SchemeEndFrom(s, i) == Some(k)
    decreases k - i
  {
    if i < k {
      assert s[i] == s[..k][i];
      SchemeEndFromFinds(s, i + 1, k);
    }
  }

  /** The schemes the URL standard calls special; they are compared in lower case. */
  const SpecialSchemes: set<string> := {"ftp", "file", "http", "https", "ws", "wss"}

  function LowerAscii(s: string): (r: string)
    ensures |r| == |s|
  {
    if s == [] then []
    else [if 'A' <= s[0] <= 'Z' then (s[0] as int + 32) as char else s[0]] + LowerAscii(s[1..])
  }

  function DropLeadingSlashes(s: string): string
  {
    if s != [] && s[0] == '/' then DropLeadingSlashes(s[1..]) else s
  }

  /** An authority up to the first '/', then the path segments after it. */
  function AuthorityUrl(scheme: string, text: string): Url
  {
    var parts := Split(text, '/');
    Url(scheme + "://" + parts[0], Segments(parts[1..]))
  }

  /**
   * An absolute URL `scheme:rest`, which ignores the base. A special scheme
   * takes an authority after any slashes; otherwise "//" starts an authority,
   * a single '/' a hierarchical path, and anything else an opaque path.
   */
  function AbsoluteUrl(scheme: string, rest: string): Url
  {
    if LowerAscii(scheme) in SpecialSchemes then AuthorityUrl(scheme, DropLeadingSlashes(rest))
    else if |rest| >= 2 && rest[..2] == "//" then AuthorityUrl(scheme, rest[2..])
    else if |rest| >= 1 && rest[0] == '/' then Url(scheme + ":", Segments(Split(rest[1..], '/')))
    else Url(scheme + ":", Opaque(rest))
  }

  /** `s` starts with "//": the reference names a new authority. */
  predicate NetworkPath(s: string)
  {
    |s| >= 2 && s[0] == '/' && s[1] == '/'
  }

  /** `s` starts with a single '/': the reference replaces the whole base path. */
  predicate PathAbsolute(s: string)
  {
    |s| >= 1 && s[0] == '/' && !NetworkPath(s)
  }

  /**
   * Code points that make the host parser reject the host of a URL whose
   * scheme is not special, wherever they occur in it.
   */
  predicate IsForbiddenHostChar(c: char)
  {
    c == '\0' || c == ' ' || c == '<' || c == '>' || c == '\\' || c == '^' || c == '|'
  }

  /** The authority of a network-path reference: the text after "//" up to the next '/'. */
  function NetworkAuthority(relative: string): string
    requires NetworkPath(relative)
  {
    Split(relative[2..], '/')[0]
  }

  /** A network-path reference whose host the parser rejects, so the constructor throws. */
  predicate HostRejected(relative: string)
  {
    && NetworkPath(relative)
    && exists i :: 0 <= i < |NetworkAuthority(relative)| && IsForbiddenHostChar(NetworkAuthority(relative)[i])
  }

  /** The scheme of an origin string, without its ':'. */
  function OriginScheme(origin: string): string
  {
    match SchemeEnd(origin)
    case Some(k) => origin[..k]
    case None => ""
  }

  /**
   * `new URL(relative, base)`. A reference that starts with a scheme is an
   * absolute URL. Otherwise a base with an opaque path cannot be resolved
   * against, and the constructor throws. A reference starting with "//"
   * keeps the base scheme but takes a new authority and path, and throws
   * when the host is rejected; one starting with a single '/' keeps the base
   * origin and replaces the whole path; any other reference, split at '/',
   * replaces the last segment of the base path.
   */
  function Resolve(relative: string, base: Url): (r: Option<Url>)
    ensures r.None? <==> !SchemeLike(relative) && (base.path.Opaque? || HostRejected(relative))
    ensures r.Some? && !SchemeLike(relative) ==> r.value.path.Segments?
    ensures r.Some? && !SchemeLike(relative) && PathAbsolute(relative) ==>
      r.value == Url(base.origin, Segments(Split(relative[1..], '/')))
    ensures r.Some? && !SchemeLike(relative) && !NetworkPath(relative) && !PathAbsolute(relative) ==>
      var segments, tail := r.value.path.segments, Split(relative, '/');
      var n := |segments| - |tail|;
      && r.value.origin == base.origin
      && 0 <= n && segments[n..] == tail && segments[..n] <= base.path.segments
      && (base.path.segments != [] ==> n + 1 == |base.path.segments|)
  {
    match SchemeEnd(relative)
    case Some(k) => Some(AbsoluteUrl(relative[..k], relative[k + 1..]))
    case None =>
      match base.path
      case Opaque(_) => None
      case Segments(segments) =>
        if NetworkPath(relative) then
          if HostRejected(relative) then None
          else Some(AuthorityUrl(OriginScheme(base.origin), relative[2..]))
        else if PathAbsolute(relative) then Some(Url(base.origin, Segments(Split(relative[1..], '/'))))
        else Some(Url(base.origin, Segments(Shorten(segments) + Split(relative, '/'))))
  }

  /** The relative reference `${name}/${SCHEMA_PATH}/${schema}` built for one table. */
  function RelativeReference(table: string, schema: string): string
  {
    table + "/" + SchemaPath + "/" + schema
  }

  lemma {:induction false} SchemeEndFromStopsAtSlash(s: string, t: string, i: nat)
    requires 0 < i <= |s| && SchemeEndFrom(s, i).None?
    requires t != [] && t[0] == '/'
    ensures SchemeEndFrom(s + t, i).None?
    decreases |s| - i
  {
    if i < |s| {
      assert (s + t)[i] == s[i];
      if s[i] != ':' && IsSchemeChar(s[i]) {
        SchemeEndFromStopsAtSlash(s, t, i + 1);
      }
    } else {
      assert (s + t)[i] == '/';
    }
  }

  /** The reference built for a table starts with a scheme exactly when the table name does. */
  lemma SchemeLikeReference(table: string, schema: string)
    ensures SchemeLike(RelativeReference(table, schema)) <==> SchemeLike(table)
  {
    var rest := "/" + SchemaPath + "/" + schema;
    var reference := RelativeReference(table, schema);
    assert reference == table + rest;
    if SchemeLike(table) {
      var k := SchemeEnd(table).value;
      assert reference[..k] == table[..k];
      SchemeEndFinds(reference, k);
    } else if |table| == 0 {
      assert reference[0] == '/';
    } else if IsAsciiAlpha(table[0]) {
      SchemeEndFromStopsAtSlash(table, rest, 1);
    } else {
      assert reference[0] == table[0];
    }
  }

  /** The URI of the resource describing `table` in `schema`. */
  function ResourceUrl(base: Url, table: string, schema: string): Option<Url>
  {
    Resolve(RelativeReference(table, schema), base)
  }

  /** One entry of the resource listing. */
  datatype Resource = Resource(uri: Url, mimeType: string, name: string, description: string)

  /** The listing entry built for one (table, schema) row; `None` when the URL constructor throws. */
  function TableResource(base: Url, table: string, schema: string): (r: Option<Resource>)
    ensures r.Some? <==>
      SchemeLike(table) || (base.path.Segments? && !HostRejected(RelativeReference(table, schema)))
    ensures r.Some? ==> Some(r.value.uri) == ResourceUrl(base, table, schema)
    ensures r.Some? ==> r.value.mimeType == JsonMimeType
  {
    SchemeLikeReference(table, schema);
    match ResourceUrl(base, table, schema)
    case None => None
    case Some(uri) =>
      Some(Resource(
        uri,
        JsonMimeType,
        "\"" + table + "\" table in schema \"" + schema + "\"",
        "Table \"" + table + "\" in schema \"" + schema + "\""))
  }

  /**
   * What the read handler pops off the path. Either may be `undefined`; the
   * schema name never is, because a split yields at least one piece.
   */
  datatype ResourceRef = ResourceRef(tableName: Option<string>, schemaName: Option<string>)

  /**
   * Pop the schema name, the marker and the table name off the path
   * components, and reject the path unless the marker is `SchemaPath`.
   * Everything before the last three components is ignored.
   */
  function ParsePathComponents(parts: seq<string>): (r: Result<ResourceRef, Fault>)
    ensures r.Ok? <==> |parts| >= 2 && parts[|parts| - 2] == SchemaPath
    ensures r.Ok? ==> r.value.schemaName == Some(parts[|parts| - 1])
    ensures r.Ok? ==> r.value.tableName == if |parts| >= 3 then Some(parts[|parts| - 3]) else None
    ensures r.Err? ==> r.error == InvalidResourceUri
  {
    var (schemaName, rest) := Pop(parts);
    var (marker, rest') := Pop(rest);
    var (tableName, _) := Pop(rest');
    if marker != Some(SchemaPath) then Err(InvalidResourceUri)
    else Ok(ResourceRef(tableName, schemaName))
  }

  /** The read handler's parse of a URL pathname: split at '/', then pop three components. */
  function ParseResourcePath(pathname: string): (r: Result<ResourceRef, Fault>)
    ensures r.Ok? ==> r.value.schemaName.Some?
    ensures r.Err? ==> r.error == InvalidResourceUri
  {
    ParsePathComponents(Split(pathname, '/'))
  }

  /** The relative reference is the three names joined with '/'. */
  lemma ReferenceJoin(table: string, schema: string)
    ensures Join([table, SchemaPath, schema], '/') == RelativeReference(table, schema)
  {
    var segments := [table, SchemaPath, schema];
    assert Join(segments[1..], '/') == SchemaPath + "/" + schema by {
      assert segments[1..][1..] == [schema];
    }
  }

  /** The relative reference splits into exactly the three segments when the names hold no '/'. */
  lemma ReferenceSegments(table: string, schema: string)
    requires '/' !in table && '/' !in schema
    ensures Split(RelativeReference(table, schema), '/') == [table, SchemaPath, schema]
  {
    ReferenceJoin(table, schema);
    SplitJoin([table, SchemaPath, schema], '/');
  }

  /** The pathname of a hierarchical path splits back into "" and its segments when they hold no '/'. */
  lemma PathnameSplit(segments: seq<string>)
    requires segments != []
    requires forall i :: 0 <= i < |segments| ==> '/' !in segments[i]
    ensures Split(Pathname(Segments(segments)), '/') == [""] + segments
  {
    SplitJoin([""] + segments, '/');
  }

  /**
   * Whatever precedes the last three segments, the parser recovers the table
   * and schema names of a reference built from names without '/'.
   */
  lemma ParseIgnoresPrefix(prefix: string, table: string, schema: string)
    requires '/' !in table && '/' !in schema
    ensures ParseResourcePath(prefix + "/" + RelativeReference(table, schema))
         == Ok(ResourceRef(Some(table), Some(schema)))
  {
    var rel := RelativeReference(table, schema);
    SplitAppend(prefix, rel, '/');
    ReferenceSegments(table, schema);
    assert prefix + "/" + rel == prefix + ['/'] + rel;
  }

  /** A listed URI always ends with the table name, the marker and the schema name. */
  lemma ResourceUrlShape(base: Url, table: string, schema: string)
    requires base.path.Segments?
    requires table != "" && '/' !in table && '/' !in schema && !SchemeLike(table)
    ensures ResourceUrl(base, table, schema)
         == Some(Url(base.origin, Segments(Shorten(base.path.segments) + [table, SchemaPath, schema])))
  {
    SchemeLikeReference(table, schema);
    ReferenceSegments(table, schema);
    assert RelativeReference(table, schema)[0] == table[0];
  }

  /**
   * For the empty table name the reference is `/schema/<schema>`, which
   * replaces the whole base path.
   */
  lemma EmptyTableUrlShape(base: Url, schema: string)
    requires base.path.Segments?
    requires '/' !in schema
    ensures ResourceUrl(base, "", schema) == Some(Url(base.origin, Segments([SchemaPath, schema])))
  {
    var reference := RelativeReference("", schema);
    SchemeLikeReference("", schema);
    assert reference[1..] == Join([SchemaPath, schema], '/');
    SplitJoin([SchemaPath, schema], '/');
  }

  /**
   * Round trip: the read handler's parse of the URI built for (table, schema)
   * passes the marker check and yields exactly that table and schema, for
   * names without '/' and a table name that does not start with a scheme.
   */
  lemma ResourceUriRoundTrip(base: Url, table: string, schema: string)
    requires base.path.Segments?
    requires '/' !in table && '/' !in schema && !SchemeLike(table)
    ensures ResourceUrl(base, table, schema).Some?
    ensures ParseResourcePath(Pathname(ResourceUrl(base, table, schema).value.path))
         == Ok(ResourceRef(Some(table), Some(schema)))
  {
    if table == "" {
      EmptyTableUrlShape(base, schema);
      PathnameSplit([SchemaPath, schema]);
      return;
    }
    ResourceUrlShape(base, table, schema);
    var front := [""] + Shorten(base.path.segments);
    var last := [table, SchemaPath, schema];
    assert [""] + (Shorten(base.path.segments) + last) == front + last;
    JoinAppend(front, last, '/');
    ReferenceJoin(table, schema);
    assert Join(front + last, '/') == Join(front, '/') + "/" + RelativeReference(table, schema);
    ParseIgnoresPrefix(Join(front, '/'), table, schema);
  }

  /**
   * A table name holding one '/' does not round-trip: the read handler
   * resolves the URI to the part after the '/' and looks up that table.
   */
  lemma SlashInTableMisreads(prefix: string, head: string, tail: string, schema: string)
    requires '/' !in head && '/' !in tail && '/' !in schema
    ensures ParseResourcePath(prefix + "/" + RelativeReference(head + "/" + tail, schema))
         == Ok(ResourceRef(Some(tail), Some(schema)))
    ensures Some(tail) != Some(head + "/" + tail)
  {
    assert prefix + "/" + RelativeReference(head + "/" + tail, schema)
        == (prefix + "/" + head) + "/" + RelativeReference(tail, schema);
    ParseIgnoresPrefix(prefix + "/" + head, tail, schema);
  }

  /**
   * A schema name holding one '/' whose first part is not the marker makes
   * the listed resource unreadable: the read handler throws "Invalid resource URI".
   */
  lemma SlashInSchemaUnreadable(prefix: string, table: string, head: string, tail: string)
    requires '/' !in table && '/' !in head && '/' !in tail
    requires head != SchemaPath
    ensures ParseResourcePath(prefix + "/" + RelativeReference(table, head + "/" + tail)) == Err(InvalidResourceUri)
  {
    var segments := [table, SchemaPath, head, tail];
    assert Join(segments, '/') == RelativeReference(table, head + "/" + tail) by {
      assert segments[1..][1..][1..] == [tail];
      assert Join(segments[1..][1..], '/') == head + "/" + tail;
      assert Join(segments[1..], '/') == SchemaPath + "/" + head + "/" + tail;
    }
    SplitJoin(segments, '/');
    SplitAppend(prefix, Join(segments, '/'), '/');
    assert prefix + "/" + Join(segments, '/') == prefix + ['/'] + Join(segments, '/');
  }

  /** The reference built for a table `scheme:head` is the absolute URL `scheme:` + the rest. */
  lemma SchemeReferenceSplits(scheme: string, head: string, schema: string)
    requires IsScheme(scheme)
    ensures SchemeEnd(RelativeReference(scheme + ":" + head, schema)) == Some(|scheme|)
    ensures RelativeReference(scheme + ":" + head, schema)[..|scheme|] == scheme
    ensures RelativeReference(scheme + ":" + head, schema)[|scheme| + 1..] == RelativeReference(head, schema)
  {
    var reference := RelativeReference(scheme + ":" + head, schema);
    assert reference == scheme + ":" + RelativeReference(head, schema);
    assert reference[..|scheme|] == scheme;
    SchemeEndFinds(reference, |scheme|);
  }

  /**
   * A table name `scheme:head` with a scheme that is not special does not
   * round-trip: its reference is an absolute URL with an opaque path, the
   * base is ignored, and the read handler looks up the table `head`.
   */
  lemma SchemeInTableMisreads(base: Url, scheme: string, head: string, schema: string)
    requires IsScheme(scheme) && LowerAscii(scheme) !in SpecialSchemes
    requires head != [] && '/' !in head && '/' !in schema
    ensures ResourceUrl(base, scheme + ":" + head, schema)
         == Some(Url(scheme + ":", Opaque(RelativeReference(head, schema))))
    ensures ParseResourcePath(Pathname(ResourceUrl(base, scheme + ":" + head, schema).value.path))
         == Ok(ResourceRef(Some(head), Some(schema)))
  {
    SchemeReferenceSplits(scheme, head, schema);
    var rest := RelativeReference(head, schema);
    assert rest[0] == head[0] != '/';
    assert AbsoluteUrl(scheme, rest) == Url(scheme + ":", Opaque(rest));
    ReferenceSegments(head, schema);
  }

  /**
   * A table name `//<host>` whose host holds a code point the host parser
   * rejects (a space, say) is never listed: the URL constructor throws,
   * whatever the base.
   */
  lemma RejectedHostInTable(base: Url, host: string, schema: string)
    requires '/' !in host
    requires exists i :: 0 <= i < |host| && IsForbiddenHostChar(host[i])
    ensures !SchemeLike("//" + host)
    ensures TableResource(base, "//" + host, schema).None?
  {
    var reference := RelativeReference("//" + host, schema);
    assert ("//" + host)[0] == '/';
    ReferenceAuthority(host, schema);
    var i :| 0 <= i < |host| && IsForbiddenHostChar(host[i]);
    assert IsForbiddenHostChar(NetworkAuthority(reference)[i]);
    assert HostRejected(reference);
  }

  /** The authority of the reference built for a table `//<host>` is `host`. */
  lemma ReferenceAuthority(host: string, schema: string)
    requires '/' !in host
    ensures NetworkPath(RelativeReference("//" + host, schema))
    ensures NetworkAuthority(RelativeReference("//" + host, schema)) == host
  {
    var reference := RelativeReference("//" + host, schema);
    var rest := SchemaPath + "/" + schema;
    assert reference[2..] == host + ['/'] + rest;
    SplitAppend(host, rest, '/');
    NoSeparatorSplit(host, '/');
  }
}

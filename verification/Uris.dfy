/** Storage URIs: how a backend names the cell of an object, how it reads a
    name back, and how the janitor picks the backend that owns a name. */
module Uris {
  import opened Wrappers
  import opened Strings
  import opened Paths

  type Oid = string
  type Uri = string

  /** A filesystem backend keeps its objects under an absolute root, an S3
      backend in one bucket. The scheme includes its final "://". */
  datatype Backend =
    | Filesystem(scheme: string, root: string)
    | Bucket(scheme: string, bucket: string)

  datatype UriError = WrongScheme | MissingKey | WrongBucket | Unparsable | NoPath | EscapesRoot

  const SCHEME_END: string := "://"

  // ------------------------------------------------------------ object ids

  predicate HexChar(c: char) {
    '0' <= c <= '9' || 'a' <= c <= 'f'
  }

  /** The handlers' pattern: exactly 64 lower-case hexadecimal characters. */
  predicate ValidOid(oid: Oid) {
    |oid| == 64 && forall i :: 0 <= i < |oid| ==> HexChar(oid[i])
  }

  // ------------------------------------------------------------ building

  /** filepath.Join(root, oid[0:2], oid[2:4], oid) for a clean absolute root. */
  function StoragePath(root: string, oid: Oid): string
    requires |oid| >= 4
  {
    (if root == "/" then "" else root) + "/" + oid[0..2] + "/" + oid[2..4] + "/" + oid
  }

  function UriOf(b: Backend, oid: Oid): Uri
    requires b.Bucket? || |oid| >= 4
  {
    match b
    case Filesystem(scheme, root) => scheme + StoragePath(root, oid)
    case Bucket(scheme, bucket) => scheme + bucket + "/" + oid
  }

  // ------------------------------------------------------------ reading back

  /** keyFromURI of the S3 backend. */
  function KeyFromUri(scheme: string, bucket: string, uri: Uri): Result<string, UriError> {
    if !HasPrefix(uri, scheme) then Err(WrongScheme)
    else
      match Cut(uri[|scheme|..], '/')
      case None => Err(MissingKey)
      case Some((found, key)) =>
        if key == "" then Err(MissingKey)
        else if found != bucket then Err(WrongBucket)
        else Ok(key)
  }

  /** A scheme that URL parsing gives back as it is: it starts with a lower-case
      letter and has only lower-case letters, digits and "+.-" before "://".
      Parsing lowers capitals, and finds another scheme or none in anything else. */
  predicate ParsesBack(scheme: string) {
    && HasSuffix(scheme, SCHEME_END) && |scheme| > 3 && 'a' <= scheme[0] <= 'z'
    && forall i :: 0 <= i < |scheme| - 3 ==> SchemeChar(scheme[i])
  }

  predicate SchemeChar(c: char) {
    'a' <= c <= 'z' || '0' <= c <= '9' || c == '+' || c == '.' || c == '-'
  }

  /** The scheme without its "://". */
  function SchemeName(scheme: string): string {
    if HasSuffix(scheme, SCHEME_END) then scheme[..|scheme| - 3] else scheme
  }

  /** pathFromURI of the filesystem backend. It compares the parsed scheme and
      the parsed and cleaned path with what is configured. */
  function PathFromUri(scheme: string, root: string, uri: Uri): Result<string, UriError> {
    match ParseUrl(uri)
    case None => Err(Unparsable)
    case Some(url) =>
      if url.scheme != SchemeName(scheme) then Err(WrongScheme)
      else if url.path == "" then Err(NoPath)
      else
        var path := Clean(url.path);
        if Under(root, path) then Ok(path) else Err(EscapesRoot)
  }

  /** The name under which a backend reaches the cell of `uri`. */
  predicate Resolves(b: Backend, uri: Uri) {
    match b
    case Filesystem(scheme, root) => PathFromUri(scheme, root, uri).Ok?
    case Bucket(scheme, bucket) => KeyFromUri(scheme, bucket, uri).Ok?
  }

  /** A bucket resolves exactly the URIs it builds: nothing else is accepted,
      and the key read back rebuilds the URI. */
  lemma KeyRebuildsUri(scheme: string, bucket: string, uri: Uri)
    ensures KeyFromUri(scheme, bucket, uri).Ok? ==>
              var key := KeyFromUri(scheme, bucket, uri).value;
              key != "" && uri == scheme + bucket + "/" + key
  {
    if KeyFromUri(scheme, bucket, uri).Ok? {
      assert uri == scheme + uri[|scheme|..];
    }
  }

  /** The round trip of the S3 backend holds exactly for buckets without a slash. */
  lemma KeyRoundTrip(scheme: string, bucket: string, oid: Oid)
    requires oid != ""
    ensures KeyFromUri(scheme, bucket, UriOf(Bucket(scheme, bucket), oid)) == Ok(oid) <==> '/' !in bucket
  {
    var uri := UriOf(Bucket(scheme, bucket), oid);
    var rest := uri[|scheme|..];
    assert rest == bucket + ['/'] + oid;
    assert HasPrefix(uri, scheme);
    if '/' !in bucket {
      CutAtFirst(bucket, '/', oid);
    } else {
      assert '/' in rest;
      assert Cut(rest, '/').value.0 != bucket;
    }
  }

  /** Whatever a URI says, with any escapes and dots, the path it stands for is
      the root or reached from it through real names only. */
  lemma NothingEscapes(scheme: string, root: string, uri: Uri) returns (below: seq<string>)
    requires Absolute(root) && PathFromUri(scheme, root, uri).Ok?
    ensures Names(below) && PathFromUri(scheme, root, uri).value == if below == [] then root else root + Spelled(below)
  {
    var path := FoundPath(scheme, root, uri);
    var names := CleanIsSpelled(path);
    below := UnderRoot(root, names);
  }

  lemma FoundPath(scheme: string, root: string, uri: Uri) returns (path: string)
    requires PathFromUri(scheme, root, uri).Ok?
    ensures PathFromUri(scheme, root, uri).value == Clean(path) && Under(root, Clean(path))
  {
    path := ParseUrl(uri).value.path;
  }

  lemma OidNames(oid: Oid)
    requires ValidOid(oid)
    ensures Names([oid[0..2], oid[2..4], oid])
    ensures Spelled([oid[0..2], oid[2..4], oid]) == "/" + oid[0..2] + "/" + oid[2..4] + "/" + oid
  {
    HexNames(oid[0..2]);
    HexNames(oid[2..4]);
    HexNames(oid);
    SpelledThree(oid[0..2], oid[2..4], oid);
  }

  lemma SpelledThree(a: string, b: string, c: string)
    ensures Spelled([a, b, c]) == "/" + a + "/" + b + "/" + c
  {
    assert [a, b, c][1..] == [b, c] && [b, c][1..] == [c] && [c][1..] == [];
    assert Spelled([c]) == "/" + c + Spelled([]) == "/" + c;
    assert Spelled([b, c]) == "/" + b + Spelled([c]);
    assert Spelled([a, b, c]) == "/" + a + Spelled([b, c]);
  }

  lemma HexNames(s: string)
    requires s != "" && forall i :: 0 <= i < |s| ==> HexChar(s[i])
    ensures Name(s)
  {
    assert HexChar(s[0]);
  }

  lemma StoragePathIsClean(root: string, oid: Oid)
    requires Absolute(root) && ValidOid(oid)
    ensures Clean(StoragePath(root, oid)) == StoragePath(root, oid)
  {
    var names :| Names(names) && root == AbsolutePath(names);
    var more := [oid[0..2], oid[2..4], oid];
    OidNames(oid);
    SpelledAppend(names, more);
    assert StoragePath(root, oid) == Spelled(names + more);
    SpelledIsClean(names + more);
  }

  lemma PlainStoragePath(root: string, oid: Oid)
    requires ValidOid(oid) && HasPrefix(root, "/")
    ensures PlainText(StoragePath(root, oid)) <==> PlainText(root)
  {
    var path := StoragePath(root, oid);
    assert forall i | 0 <= i < |oid| :: HexChar(oid[i]);
    if root != "/" {
      assert forall c | c in root :: c in path;
    }
  }

  lemma FileUri(b: Backend, oid: Oid)
    requires b.Filesystem? && ValidOid(oid) && HasSuffix(b.scheme, SCHEME_END)
    ensures UriOf(b, oid) == SchemeName(b.scheme) + (":" + ("//" + StoragePath(b.root, oid)))
  {
    SplitScheme(b.scheme, StoragePath(b.root, oid));
  }

  lemma SplitScheme(scheme: string, rest: string)
    requires HasSuffix(scheme, SCHEME_END)
    ensures scheme + rest == SchemeName(scheme) + (":" + ("//" + rest))
  {
    var name := SchemeName(scheme);
    assert scheme == name + "://" && "://" + rest == ":" + ("//" + rest);
    assert name + "://" + rest == name + ("://" + rest);
  }

  lemma StoragePathShape(root: string, oid: Oid)
    requires ValidOid(oid) && HasPrefix(root, "/")
    ensures HasPrefix(StoragePath(root, oid), "/") && |StoragePath(root, oid)| > 70
  {}

  lemma AbsoluteStarts(root: string)
    requires Absolute(root)
    ensures HasPrefix(root, "/")
  {}

  /** A URI that a backend with a proper scheme and root has built is parsed into
      what it was built from. */
  lemma ParsesOwn(b: Backend, oid: Oid)
    requires b.Filesystem? && ValidOid(oid) && ParsesBack(b.scheme) && Absolute(b.root) && PlainText(b.root)
    ensures ParseUrl(UriOf(b, oid)) == Some(Url(SchemeName(b.scheme), StoragePath(b.root, oid)))
  {
    var name := SchemeName(b.scheme);
    assert forall i | 0 <= i < |name| :: SchemeChar(name[i]) && Lower(name[i]) == name[i];
    assert ToLower(name) == name;
    FileUri(b, oid);
    AbsoluteStarts(b.root);
    StoragePathShape(b.root, oid);
    PlainStoragePath(b.root, oid);
    ParsesPlain(name, StoragePath(b.root, oid));
  }

  lemma FoundSchemeParsesBack(scheme: string)
    requires HasSuffix(scheme, SCHEME_END)
    requires var name := SchemeName(scheme);
             name != "" && ToLower(name) == name && forall k :: 0 <= k < |name| ==> InScheme(name[k], k)
    ensures ParsesBack(scheme)
  {
    var name := SchemeName(scheme);
    forall k | 0 <= k < |name| ensures SchemeChar(name[k]) && (k == 0 ==> 'a' <= name[k] <= 'z') {
      assert ToLower(name)[k] == Lower(name[k]) && InScheme(name[k], k);
    }
  }

  /** The parsed path is the one put in only if scheme and path are proper. */
  lemma ParsesOwnOnly(b: Backend, oid: Oid)
    requires b.Filesystem? && ValidOid(oid) && HasSuffix(b.scheme, SCHEME_END) && Absolute(b.root)
    requires PathFromUri(b.scheme, b.root, UriOf(b, oid)) == Ok(StoragePath(b.root, oid))
    ensures ParsesBack(b.scheme) && PlainText(b.root)
  {
    var name, path, uri := SchemeName(b.scheme), StoragePath(b.root, oid), UriOf(b, oid);
    var tail := ":" + ("//" + path);
    FileUri(b, oid);
    AbsoluteStarts(b.root);
    StoragePathShape(b.root, oid);
    SchemeComesBack(name, tail, uri, Before(uri, '#'));
    FoundSchemeParsesBack(b.scheme);
    PlainStoragePath(b.root, oid);
    CleanIsNoLonger(ParseUrl(uri).value.path);
    if !PlainText(path) { PathComesBack(name, path); }
  }

  /** The round trip of the filesystem backend holds exactly when URL parsing
      gives scheme and root back as they are and the root is not the file
      system's own: a SCHEME of "FS://", a ROOT of "/srv/a#b" and a ROOT of "/"
      each make the backend miss its own objects. */
  lemma PathRoundTrip(scheme: string, root: string, oid: Oid)
    requires HasSuffix(scheme, SCHEME_END) && Absolute(root) && ValidOid(oid)
    ensures PathFromUri(scheme, root, UriOf(Filesystem(scheme, root), oid)) == Ok(StoragePath(root, oid)) <==>
            ParsesBack(scheme) && PlainText(root) && root != "/"
  {
    var b := Filesystem(scheme, root);
    StoragePathIsClean(root, oid);
    OwnPathIsUnder(root, oid);
    if ParsesBack(scheme) && PlainText(root) {
      ParsesOwn(b, oid);
      PathOfParsed(scheme, root, UriOf(b, oid), StoragePath(root, oid));
    }
    if PathFromUri(scheme, root, UriOf(b, oid)) == Ok(StoragePath(root, oid)) { ParsesOwnOnly(b, oid); }
  }

  lemma PathOfParsed(scheme: string, root: string, uri: Uri, path: string)
    requires ParseUrl(uri) == Some(Url(SchemeName(scheme), path)) && path != "" && Clean(path) == path
    ensures PathFromUri(scheme, root, uri) == if Under(root, path) then Ok(path) else Err(EscapesRoot)
  {}

  lemma OwnPathIsUnder(root: string, oid: Oid)
    requires Absolute(root) && ValidOid(oid)
    ensures Under(root, StoragePath(root, oid)) <==> root != "/"
  {
    var path := StoragePath(root, oid);
    if root == "/" {
      assert path[1] == oid[0] && HexChar(oid[0]);
    } else {
      assert path == root + "/" + (oid[0..2] + "/" + oid[2..4] + "/" + oid);
    }
  }

  // ------------------------------------------------------------ distinct cells

  /** Every URI ends in the object id it was built from. */
  lemma UriEndsInOid(b: Backend, oid: Oid)
    requires |oid| >= 4
    ensures HasSuffix(UriOf(b, oid), oid)
  {}

  /** No two objects share a URI, whichever backends built them. */
  lemma UriDeterminesOid(b: Backend, oid: Oid, c: Backend, other: Oid)
    requires ValidOid(oid) && ValidOid(other)
    requires UriOf(b, oid) == UriOf(c, other)
    ensures oid == other
  {
    UriEndsInOid(b, oid);
    UriEndsInOid(c, other);
  }

  predicate SchemeEndsAt(uri: Uri, k: nat) {
    3 <= k <= |uri| && uri[k - 3..k] == SCHEME_END
  }

  /** "://" occurs in the scheme at its end and nowhere before. */
  predicate CleanScheme(scheme: string) {
    && SchemeEndsAt(scheme, |scheme|)
    && forall k: nat | k < |scheme| :: !SchemeEndsAt(scheme, k)
  }

  /** What the configuration of a usable backend looks like. */
  ghost predicate WellFormed(b: Backend) {
    && CleanScheme(b.scheme) && ':' !in SchemeName(b.scheme)
    && match b
       case Filesystem(scheme, root) => ParsesBack(scheme) && Absolute(root) && PlainText(root) && root != "/"
       case Bucket(_, bucket) => bucket != "" && '/' !in bucket
  }

  /** At most one clean scheme is a prefix of any URI. */
  lemma OneSchemeOwnsUri(s: string, t: string, uri: Uri)
    requires CleanScheme(s) && CleanScheme(t)
    requires HasPrefix(uri, s) && HasPrefix(uri, t)
    ensures s == t
  {
    var k := if |s| < |t| then |s| else |t|;
    assert s[..k] == uri[..k] == t[..k];
    assert s[k - 3..k] == uri[k - 3..k] == t[k - 3..k];
    assert SchemeEndsAt(s, k) && SchemeEndsAt(t, k);
    assert s == uri[..|s|] && t == uri[..|t|];
  }

  /** A file and a bucket object never have the same name. */
  lemma FilesAndBucketsAreApart(f: Backend, b: Backend, oid: Oid, other: Oid)
    requires f.Filesystem? && b.Bucket? && WellFormed(f) && WellFormed(b)
    requires ValidOid(oid) && ValidOid(other)
    ensures UriOf(f, oid) != UriOf(b, other)
  {
    var u, v := UriOf(f, oid), UriOf(b, other);
    assert HasPrefix(u, f.scheme) && HasPrefix(v, b.scheme);
    assert u[|f.scheme|] == '/';
    assert v[|b.scheme|] == b.bucket[0] != '/';
    if u == v {
      OneSchemeOwnsUri(f.scheme, b.scheme, u);
    }
  }

  lemma SameSchemeName(b: Backend, c: Backend)
    requires HasSuffix(b.scheme, SCHEME_END) && HasSuffix(c.scheme, SCHEME_END) && SchemeName(b.scheme) == SchemeName(c.scheme)
    ensures b.scheme == c.scheme
  {
    assert b.scheme == SchemeName(b.scheme) + SCHEME_END && c.scheme == SchemeName(c.scheme) + SCHEME_END;
  }

  /** What a backend makes of another one's URI: that one's path, if they share
      the scheme and the path is under its own root. */
  lemma ResolvedPath(b: Backend, c: Backend, oid: Oid)
    requires b.Filesystem? && c.Filesystem? && WellFormed(b) && WellFormed(c) && ValidOid(oid)
    ensures var path := StoragePath(c.root, oid);
            PathFromUri(b.scheme, b.root, UriOf(c, oid)) ==
            if b.scheme != c.scheme then Err(WrongScheme) else if Under(b.root, path) then Ok(path) else Err(EscapesRoot)
  {
    ParsesOwn(c, oid);
    StoragePathIsClean(c.root, oid);
    if SchemeName(b.scheme) == SchemeName(c.scheme) {
      SameSchemeName(b, c);
      AbsoluteStarts(c.root);
      StoragePathShape(c.root, oid);
      PathOfParsed(b.scheme, b.root, UriOf(c, oid), StoragePath(c.root, oid));
    }
  }

  /** A filesystem backend resolves no bucket object: its parser takes the bucket
      for an authority. */
  lemma BucketsDoNotResolve(b: Backend, c: Backend, oid: Oid)
    requires b.Filesystem? && c.Bucket? && WellFormed(b) && WellFormed(c)
    ensures !Resolves(b, UriOf(c, oid))
  {
    var uri, rest := UriOf(c, oid), c.bucket + "/" + oid;
    assert uri == c.scheme + rest;
    SplitScheme(c.scheme, rest);
    match ParseUrl(uri)
    case None =>
    case Some(url) =>
      if url.scheme != "" {
        AuthorityHasNoPath(SchemeName(c.scheme), rest, uri, url);
        if url.path != "" { ShortIsNotUnder(b, url.path); }
      }
  }

  lemma ShortIsNotUnder(b: Backend, path: string)
    requires b.Filesystem? && WellFormed(b) && path == "/"
    ensures !Under(b.root, Clean(path))
  {
    AbsoluteStarts(b.root);
    SlashIsClean();
  }

  // ------------------------------------------------------------ routing

  /** deleteByURI: the first backend whose scheme is a prefix of the URI. */
  function Route(backends: seq<Backend>, uri: Uri): (r: Option<Backend>)
    ensures r.None? <==> forall i :: 0 <= i < |backends| ==> !HasPrefix(uri, backends[i].scheme)
    ensures r.Some? ==> r.value in backends && HasPrefix(uri, r.value.scheme)
  {
    if backends == [] then None
    else if HasPrefix(uri, backends[0].scheme) then Some(backends[0])
    else Route(backends[1..], uri)
  }

  predicate DistinctSchemes(backends: seq<Backend>) {
    forall i, j :: 0 <= i < j < |backends| ==> backends[i].scheme != backends[j].scheme
  }

  lemma RouteIsUnique(backends: seq<Backend>, owner: Backend, uri: Uri)
    requires DistinctSchemes(backends) && owner in backends && HasPrefix(uri, owner.scheme)
    requires forall i :: 0 <= i < |backends| ==> CleanScheme(backends[i].scheme)
    ensures Route(backends, uri) == Some(owner)
  {
    var k :| 0 <= k < |backends| && backends[k] == owner;
    var chosen := Route(backends, uri).value;
    var j :| 0 <= j < |backends| && backends[j] == chosen;
    OneSchemeOwnsUri(owner.scheme, chosen.scheme, uri);
  }

  /** Whatever order the janitor keeps its backends in, a URI goes to the one
      backend that has its scheme. */
  lemma RouteReachesOwner(backends: seq<Backend>, owner: Backend, oid: Oid)
    requires |oid| >= 4
    requires DistinctSchemes(backends) && owner in backends
    requires forall i :: 0 <= i < |backends| ==> CleanScheme(backends[i].scheme)
    ensures Route(backends, UriOf(owner, oid)) == Some(owner)
  {
    assert HasPrefix(UriOf(owner, oid), owner.scheme);
    RouteIsUnique(backends, owner, UriOf(owner, oid));
  }
}

/** What the filesystem backend does with a URI before it looks at the path:
    URL parsing as far as a scheme and a path, and the cleaning of paths. A
    character stands for one byte. */
module Paths {
  import opened Wrappers
  import opened Strings

  // ------------------------------------------------------------ percent-encoding

  predicate IsHex(c: char) {
    '0' <= c <= '9' || 'a' <= c <= 'f' || 'A' <= c <= 'F'
  }

  function HexValue(c: char): nat
    requires IsHex(c)
  {
    if c <= '9' then (c - '0') as nat else if c <= 'F' then (c - 'A') as nat + 10 else (c - 'a') as nat + 10
  }

  /** Every escape replaced by its byte; None for a malformed escape. */
  function Decoded(s: string): (r: Option<string>)
    ensures '%' !in s ==> r == Some(s)
    ensures '%' in s && r.Some? ==> |r.value| < |s|
    ensures HasPrefix(s, "/") && r.Some? ==> HasPrefix(r.value, "/")
  {
    if s == "" then Some("")
    else if s[0] != '%' then
      match Decoded(s[1..])
      case None => None
      case Some(rest) => assert s == [s[0]] + s[1..]; Some([s[0]] + rest)
    else if |s| < 3 || !IsHex(s[1]) || !IsHex(s[2]) then None
    else
      match Decoded(s[3..])
      case None => None
      case Some(rest) => Some([(16 * HexValue(s[1]) + HexValue(s[2])) as char] + rest)
  }

  // ------------------------------------------------------------ URL parsing

  datatype Url = Url(scheme: string, path: string)

  predicate Letter(c: char) {
    'a' <= c <= 'z' || 'A' <= c <= 'Z'
  }

  predicate Control(c: char) {
    c < ' ' || c == 127 as char
  }

  /** Where the scheme ends: nowhere, or at a colon, which must not come first. */
  datatype SchemeEnd = NoScheme | EmptyScheme | EndsAt(length: nat)

  function FindScheme(s: string, i: nat): (r: SchemeEnd)
    requires i <= |s|
    ensures r.EndsAt? ==> i <= r.length < |s| && r.length > 0 && s[r.length] == ':'
    ensures r.EndsAt? ==> forall k :: i <= k < r.length ==> InScheme(s[k], k)
    decreases |s| - i
  {
    if i == |s| then NoScheme
    else if s[i] == ':' then if i == 0 then EmptyScheme else EndsAt(i)
    else if InScheme(s[i], i) then FindScheme(s, i + 1)
    else NoScheme
  }

  predicate InScheme(c: char, i: nat) {
    Letter(c) || (i > 0 && ('0' <= c <= '9' || c == '+' || c == '.' || c == '-'))
  }

  lemma {:induction false} FindsScheme(s: string, i: nat, n: nat)
    requires i <= n < |s| && n > 0 && s[n] == ':' && forall k :: i <= k < n ==> InScheme(s[k], k)
    ensures FindScheme(s, i) == EndsAt(n)
    decreases n - i
  {
    if i < n { FindsScheme(s, i + 1, n); }
  }

  function Before(s: string, c: char): (r: string)
    ensures c !in r && HasPrefix(s, r) && (c !in s ==> r == s) && (c in s ==> |r| < |s|)
  {
    match Cut(s, c)
    case None => s
    case Some((before, _)) => before
  }

  function Fragment(s: string): string {
    match Cut(s, '#')
    case None => ""
    case Some((_, after)) => after
  }

  /** url.Parse: the fragment and the query are cut off, the scheme is lowered,
      escapes in the path are decoded. None for a URL it rejects; a URL with an
      authority counts as rejected, and one without an absolute path has none. */
  function ParseUrl(uri: string): (r: Option<Url>)
    ensures r.Some? && r.value.path != "" ==> HasPrefix(r.value.path, "/")
  {
    var text := Before(uri, '#');
    if (exists c :: c in text && Control(c)) || Decoded(Fragment(uri)).None? then None
    else
      match FindScheme(text, 0)
      case EmptyScheme => None
      case NoScheme => ParseRest("", text)
      case EndsAt(n) => ParseRest(ToLower(text[..n]), text[n + 1..])
  }

  function ParseRest(scheme: string, text: string): (r: Option<Url>)
    ensures r.Some? ==> r.value.scheme == scheme
    ensures r.Some? && r.value.path != "" ==> HasPrefix(r.value.path, "/")
  {
    var rest := Before(text, '?');
    var path := if !HasPrefix(rest, "//") then rest else rest[2..];
    if HasPrefix(path, "/") then
      match Decoded(path)
      case None => None
      case Some(decoded) => Some(Url(scheme, decoded))
    else if HasPrefix(rest, "//") && path != "" then None
    else Some(Url(scheme, ""))
  }

  /** Characters that URL parsing gives back as they are in a path. */
  predicate PlainText(s: string) {
    forall c | c in s :: c != '%' && c != '#' && c != '?' && !Control(c)
  }

  lemma ParsesPlain(scheme: string, path: string)
    requires scheme != "" && ToLower(scheme) == scheme && forall k :: 0 <= k < |scheme| ==> InScheme(scheme[k], k)
    requires PlainText(path) && HasPrefix(path, "/")
    ensures ParseUrl(scheme + (":" + ("//" + path))) == Some(Url(scheme, path))
  {
    var uri := scheme + (":" + ("//" + path));
    PlainUri(scheme, path);
    FindsScheme(uri, 0, |scheme|);
    assert uri[..|scheme|] == scheme && uri[|scheme| + 1..] == "//" + path;
    PlainRest(scheme, path);
  }

  lemma PlainUri(scheme: string, path: string)
    requires forall k :: 0 <= k < |scheme| ==> InScheme(scheme[k], k)
    requires PlainText(path)
    ensures forall c | c in scheme + (":" + ("//" + path)) :: c != '#' && !Control(c)
  {}

  lemma PlainRest(scheme: string, path: string)
    requires PlainText(path) && HasPrefix(path, "/")
    ensures ParseRest(scheme, "//" + path) == Some(Url(scheme, path))
  {
    assert '?' !in "//" + path && ("//" + path)[2..] == path;
  }

  /** What ParseRest makes of anything that starts like "//" and a path. */
  lemma RestIsShort(scheme: string, path: string, text: string)
    requires HasPrefix(path, "/") && |path| > 1 && HasPrefix("//" + path, text)
    ensures var r := ParseRest(scheme, text);
            r.Some? ==> |r.value.path| <= |path| && (|text| < |path| + 2 || !PlainQuery(path) ==> |r.value.path| < |path|)
  {
    var rest := Before(text, '?');
    assert rest == text[..|rest|] == ("//" + path)[..|text|][..|rest|];
    assert rest == ("//" + path)[..|rest|];
    if |rest| >= 2 { assert rest[2..] == path[..|rest| - 2]; }
    if |rest| == |path| + 2 { assert rest[2..] == path && text == "//" + path; }
  }

  /** No query and no escape. */
  predicate PlainQuery(path: string) {
    '?' !in path && '%' !in path
  }

  /** The scheme of a URL is what stands before its first colon, lowered. */
  lemma SchemeFound(scheme: string, rest: string, text: string)
    requires HasPrefix(scheme + rest, text) && HasPrefix(rest, ":")
    requires FindScheme(text, 0).EndsAt? && ToLower(text[..FindScheme(text, 0).length]) == scheme
    ensures FindScheme(text, 0) == EndsAt(|scheme|) && text[..|scheme|] == scheme
    ensures HasPrefix(rest[1..], text[|scheme| + 1..])
  {
    var n := |scheme|;
    assert text[..n] == (scheme + rest)[..|text|][..n] == scheme;
    assert text[n + 1..] == (scheme + rest)[..|text|][n + 1..] == rest[1..|text| - n];
  }

  lemma ParsedParts(uri: string)
    requires ParseUrl(uri).Some?
    ensures var r, text := ParseUrl(uri).value, Before(uri, '#');
            && (forall c | c in text :: !Control(c))
            && match FindScheme(text, 0)
               case EmptyScheme => false
               case NoScheme => r.scheme == ""
               case EndsAt(n) => r.scheme == ToLower(text[..n]) && Some(r) == ParseRest(r.scheme, text[n + 1..])
  {}

  /** A URL whose scheme comes back as it was put in has one that lowering leaves
      alone; the rest is parsed from what is left of it before the fragment. */
  lemma SchemeComesBack(scheme: string, tail: string, uri: string, text: string)
    requires uri == scheme + tail && HasPrefix(tail, ":") && text == Before(uri, '#')
    requires ParseUrl(uri).Some? && ParseUrl(uri).value.scheme == scheme
    ensures scheme != "" && ToLower(scheme) == scheme && forall k :: 0 <= k < |scheme| ==> InScheme(scheme[k], k)
    ensures |scheme| + 1 <= |text| && HasPrefix(tail[1..], text[|scheme| + 1..])
    ensures ParseUrl(uri) == ParseRest(scheme, text[|scheme| + 1..])
  {
    ParsedParts(uri);
    NotSchemeless(scheme, tail, text);
    SchemeFound(scheme, tail, text);
  }

  /** Then a path with other than plain characters gets shorter. */
  lemma PathComesBack(scheme: string, path: string)
    requires HasPrefix(path, "/") && |path| > 1 && !PlainText(path)
    requires var r := ParseUrl(scheme + (":" + ("//" + path))); r.Some? && r.value.scheme == scheme
    ensures |ParseUrl(scheme + (":" + ("//" + path))).value.path| < |path|
  {
    var tail := ":" + ("//" + path);
    var uri := scheme + tail;
    var text := Before(uri, '#');
    assert tail[1..] == "//" + path;
    SchemeComesBack(scheme, tail, uri, text);
    RestIsShort(scheme, path, text[|scheme| + 1..]);
    if PlainQuery(path) {
      ParsedParts(uri);
      CutShort(scheme, path);
    }
  }

  lemma NotSchemeless(scheme: string, rest: string, text: string)
    requires text == Before(scheme + rest, '#') && HasPrefix(rest, ":")
    ensures scheme == "" ==> FindScheme(text, 0).EmptyScheme?
  {
    if scheme == "" {
      assert (scheme + rest)[0] == ':';
      assert |text| > 0 && text[0] == (scheme + rest)[..|text|][0];
    }
  }

  lemma CutShort(scheme: string, path: string)
    requires !PlainText(path) && PlainQuery(path)
    ensures var uri := scheme + (":" + ("//" + path));
            |Before(uri, '#')| < |uri| || exists c :: c in Before(uri, '#') && Control(c)
  {
    var c :| c in path && (c == '#' || Control(c));
    assert c in scheme + (":" + ("//" + path));
  }

  lemma ShortPath(scheme: string, rest: string, text: string)
    requires rest != "" && rest[0] != '/' && HasPrefix("//" + rest, text)
    ensures ParseRest(scheme, text).Some? ==> |ParseRest(scheme, text).value.path| <= 1
  {
    var before := Before(text, '?');
    assert before == text[..|before|] == ("//" + rest)[..|text|][..|before|] == ("//" + rest)[..|before|];
    if |before| > 2 { assert before[2..][0] == rest[0]; }
  }

  /** A URL with an authority has no path to speak of. */
  lemma AuthorityHasNoPath(name: string, rest: string, uri: string, url: Url)
    requires ':' !in name && rest != "" && rest[0] != '/' && uri == name + (":" + ("//" + rest))
    requires ParseUrl(uri) == Some(url) && url.scheme != ""
    ensures |url.path| <= 1
  {
    var text := Before(uri, '#');
    ParsedParts(uri);
    AuthorityRest(name, rest, text);
    ShortPath(url.scheme, rest, text[FindScheme(text, 0).length + 1..]);
  }

  lemma AuthorityRest(name: string, rest: string, text: string)
    requires ':' !in name && FindScheme(text, 0).EndsAt? && HasPrefix(name + (":" + ("//" + rest)), text)
    ensures HasPrefix("//" + rest, text[FindScheme(text, 0).length + 1..])
  {
    var tail := ":" + ("//" + rest);
    assert tail[1..] == "//" + rest;
    FirstColon(name, tail, text);
  }

  lemma FirstColon(name: string, tail: string, text: string)
    requires ':' !in name && HasPrefix(tail, ":") && HasPrefix(name + tail, text) && FindScheme(text, 0).EndsAt?
    ensures FindScheme(text, 0) == EndsAt(|name|) && HasPrefix(tail[1..], text[|name| + 1..])
  {
    var n := FindScheme(text, 0).length;
    var before, after, more := text[..n], text[n + 1..], (name + tail)[|text|..];
    assert ':' !in before by {
      forall k | 0 <= k < n ensures before[k] != ':' { assert InScheme(text[k], k); }
    }
    assert name + [':'] + tail[1..] == name + tail == text + more == before + [':'] + (after + more);
    CutsApart(name, ':', tail[1..], before, after + more);
  }

  // ------------------------------------------------------------ clean paths

  function Segments(s: string): (r: seq<string>)
    ensures |r| > 0
    decreases |s|
  {
    match Cut(s, '/')
    case None => [s]
    case Some((first, rest)) => [first] + Segments(rest)
  }

  /** Going down from the root one segment at a time. */
  function Walk(done: seq<string>, rest: seq<string>): seq<string>
    decreases |rest|
  {
    if rest == [] then done
    else if rest[0] == "" || rest[0] == "." then Walk(done, rest[1..])
    else if rest[0] == ".." then Walk(if done == [] then [] else done[..|done| - 1], rest[1..])
    else Walk(done + [rest[0]], rest[1..])
  }

  function Spelled(names: seq<string>): string {
    if names == [] then "" else "/" + names[0] + Spelled(names[1..])
  }

  /** filepath.Clean of an absolute path. */
  function Clean(path: string): string {
    AbsolutePath(Walk([], Segments(path)))
  }

  function AbsolutePath(names: seq<string>): string {
    if names == [] then "/" else Spelled(names)
  }

  predicate Name(s: string) {
    s != "" && s != "." && s != ".." && '/' !in s
  }

  predicate Names(names: seq<string>) {
    forall i :: 0 <= i < |names| ==> Name(names[i])
  }

  lemma {:induction false} SegmentsHaveNoSlash(s: string)
    ensures forall i :: 0 <= i < |Segments(s)| ==> '/' !in Segments(s)[i]
    decreases |s|
  {
    match Cut(s, '/')
    case None =>
    case Some((_, rest)) => SegmentsHaveNoSlash(rest);
  }

  lemma {:induction false} WalkGivesNames(done: seq<string>, rest: seq<string>)
    requires Names(done) && forall i :: 0 <= i < |rest| ==> '/' !in rest[i]
    ensures Names(Walk(done, rest))
    decreases |rest|
  {
    if rest != [] {
      if rest[0] == "" || rest[0] == "." {
        WalkGivesNames(done, rest[1..]);
      } else if rest[0] == ".." {
        WalkGivesNames(if done == [] then [] else done[..|done| - 1], rest[1..]);
      } else {
        WalkGivesNames(done + [rest[0]], rest[1..]);
      }
    }
  }

  lemma {:induction false} WalkTakesNames(done: seq<string>, rest: seq<string>)
    requires Names(rest)
    ensures Walk(done, rest) == done + rest
    decreases |rest|
  {
    if rest == [] {
      assert done + rest == done;
    } else {
      WalkTakesNames(done + [rest[0]], rest[1..]);
      assert done + [rest[0]] + rest[1..] == done + rest;
    }
  }

  lemma SpelledFirst(first: string, names: seq<string>)
    requires names != []
    ensures first + Spelled(names) == first + ['/'] + (names[0] + Spelled(names[1..]))
  {
    var rest := names[0] + Spelled(names[1..]);
    assert Spelled(names) == ['/'] + rest;
    assert first + (['/'] + rest) == first + ['/'] + rest;
  }

  lemma {:induction false} SpelledSegments(first: string, names: seq<string>)
    requires '/' !in first && Names(names)
    ensures Segments(first + Spelled(names)) == [first] + names
    decreases |names|
  {
    if names == [] {
      assert first + "" == first;
    } else {
      SpelledFirst(first, names);
      CutAtFirst(first, '/', names[0] + Spelled(names[1..]));
      SpelledSegments(names[0], names[1..]);
    }
  }

  lemma {:induction false} SpelledAppend(a: seq<string>, b: seq<string>)
    ensures Spelled(a + b) == Spelled(a) + Spelled(b)
    decreases |a|
  {
    if a == [] {
      assert a + b == b;
    } else {
      assert (a + b)[0] == a[0] && (a + b)[1..] == a[1..] + b;
      SpelledAppend(a[1..], b);
    }
  }

  /** Going down from the root along names that are all real. */
  lemma SpelledIsClean(names: seq<string>)
    requires Names(names)
    ensures Walk([], Segments(Spelled(names))) == names
  {
    SpelledSegments("", names);
    assert "" + Spelled(names) == Spelled(names);
    assert ([""] + names)[1..] == names;
    WalkTakesNames([], names);
  }

  /** A clean path is the root, or a list of real names: no empty one, no dots. */
  lemma CleanIsSpelled(path: string) returns (names: seq<string>)
    ensures Names(names) && Clean(path) == AbsolutePath(names)
    ensures Clean(Clean(path)) == Clean(path)
  {
    names := Walk([], Segments(path));
    SegmentsHaveNoSlash(path);
    WalkGivesNames([], Segments(path));
    if names == [] { SlashIsClean(); } else { SpelledIsClean(names); }
  }

  lemma SlashIsClean()
    ensures Clean("/") == "/"
  {
    CutAtFirst("", '/', "");
    assert Segments("/") == [""] + Segments("") == ["", ""];
    assert ["", ""][1..] == [""] && [""][1..] == [];
  }

  lemma {:induction false} SegmentsSize(s: string)
    ensures |Spelled(Segments(s))| == |s| + 1
    decreases |s|
  {
    match Cut(s, '/')
    case None => assert Spelled([s][1..]) == "";
    case Some((first, rest)) =>
      SegmentsSize(rest);
      assert ([first] + Segments(rest))[1..] == Segments(rest);
  }

  lemma {:induction false} WalkSize(done: seq<string>, rest: seq<string>)
    ensures |Spelled(Walk(done, rest))| <= |Spelled(done)| + |Spelled(rest)|
    decreases |rest|
  {
    if rest != [] {
      if rest[0] == "" || rest[0] == "." {
        WalkSize(done, rest[1..]);
      } else if rest[0] == ".." {
        if done != [] {
          SpelledAppend(done[..|done| - 1], done[|done| - 1..]);
          assert done == done[..|done| - 1] + done[|done| - 1..];
        }
        WalkSize(if done == [] then [] else done[..|done| - 1], rest[1..]);
      } else {
        SpelledAppend(done, [rest[0]]);
        assert Spelled([rest[0]]) == "/" + rest[0] + "";
        WalkSize(done + [rest[0]], rest[1..]);
      }
    }
  }

  lemma CleanIsNoLonger(path: string)
    requires HasPrefix(path, "/")
    ensures |Clean(path)| <= |path|
  {
    CutAtFirst("", '/', path[1..]);
    assert path == "" + ['/'] + path[1..];
    SegmentsSize(path);
    WalkSize([], Segments(path)[1..]);
  }

  // ------------------------------------------------------------ roots

  /** What filepath.Abs gives for the configured root. */
  ghost predicate Absolute(root: string) {
    exists names :: Names(names) && root == AbsolutePath(names)
  }

  /** Exactly the absolute paths that cleaning leaves alone. */
  lemma AbsoluteIff(root: string)
    ensures Absolute(root) <==> HasPrefix(root, "/") && Clean(root) == root
  {
    var names := CleanIsSpelled(root);
    if Clean(root) == root {
      assert root == AbsolutePath(names);
    }
    if Absolute(root) {
      var given :| Names(given) && root == AbsolutePath(given);
      if given == [] { SlashIsClean(); } else { SpelledIsClean(given); }
    }
  }


  lemma DropSlash(b: string, y: string, a: string, more: string, rest: string)
    requires "/" + b + y == "/" + a + more + "/" + rest
    ensures b + y == a + (more + "/" + rest)
  {
    var u, v := b + y, a + (more + "/" + rest);
    assert "/" + b + y == "/" + u && "/" + a + more + "/" + rest == "/" + v;
    assert u == ("/" + u)[1..] && v == ("/" + v)[1..];
  }

  /** Two paths that agree, and whose first names end at a slash or at the end. */
  lemma SameName(a: string, x: string, b: string, y: string)
    requires '/' !in a && '/' !in b && HasPrefix(x, "/") && (y == "" || HasPrefix(y, "/")) && b + y == a + x
    ensures a == b && y == x
  {
    assert x == ['/'] + x[1..] && a + x == a + ['/'] + x[1..];
    assert '/' in a + x && (y == "" ==> '/' !in b + y);
    if y != "" {
      assert y == ['/'] + y[1..] && b + y == b + ['/'] + y[1..];
      CutsApart(a, '/', x[1..], b, y[1..]);
    }
  }

  lemma StartsWithSlash(names: seq<string>, rest: string)
    ensures HasPrefix(Spelled(names) + "/" + rest, "/")
    ensures names != [] ==> HasPrefix(Spelled(names), "/")
  {}

  lemma {:induction false} SameStart(a: seq<string>, b: seq<string>, rest: string)
    requires Names(a) && Names(b) && a != [] && Spelled(b) == Spelled(a) + "/" + rest
    ensures |a| < |b| && b[..|a|] == a
    decreases |a|
  {
    var x, y := Spelled(a[1..]) + "/" + rest, Spelled(b[1..]);
    StartsWithSlash(a[1..], rest);
    StartsWithSlash(b[1..], "");
    DropSlash(b[0], y, a[0], Spelled(a[1..]), rest);
    SameName(a[0], x, b[0], y);
    if |a| > 1 {
      SameStart(a[1..], b[1..], rest);
    }
    assert a == [a[0]] + a[1..] && b == [b[0]] + b[1..];
  }

  predicate Under(root: string, path: string) {
    HasPrefix(path, root + "/") || path == root
  }

  /** A clean path under the root is reached from it by real names only. */
  lemma UnderRoot(root: string, names: seq<string>) returns (below: seq<string>)
    requires Absolute(root) && Names(names) && Under(root, AbsolutePath(names))
    ensures Names(below) && AbsolutePath(names) == if below == [] then root else root + Spelled(below)
  {
    var path := AbsolutePath(names);
    if path == root {
      below := [];
    } else {
      var above :| Names(above) && root == AbsolutePath(above);
      assert path == root + "/" + path[|root| + 1..];
      if above == [] {
        NoDoubleSlash(names);
      } else {
        SameStart(above, names, path[|root| + 1..]);
        below := names[|above|..];
        assert names == above + below;
        SpelledAppend(above, below);
      }
    }
  }

  /** A clean path has no empty name, so there is nothing under a root of "/". */
  lemma NoDoubleSlash(names: seq<string>)
    requires Names(names)
    ensures !HasPrefix(AbsolutePath(names), "//")
  {
    if names != [] {
      assert names[0] != "" && Spelled(names)[1] == names[0][0];
    }
  }
}

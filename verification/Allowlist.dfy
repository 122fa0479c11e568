/** The repository allowlist of a forge: parsing, compiling and matching, and
    the plain reading of the configured entries they refine. */
module Allowlist {
  import opened Wrappers
  import opened Strings
  import opened Uris

  datatype EntryError = BareStars | LeadingSlash | DoubleSlash | StrayStar

  const TREE_SUFFIX: string := "/**"

  // ------------------------------------------------------------ normal form

  predicate IsSpace(c: char) {
    c == ' ' || '\t' <= c <= '\r'
  }

  function TrimSpace(s: string): string
    decreases |s|
  {
    if s == "" then s
    else if IsSpace(s[0]) then TrimSpace(s[1..])
    else if IsSpace(s[|s| - 1]) then TrimSpace(s[..|s| - 1])
    else s
  }

  function Normal(raw: string): string {
    ToLower(TrimSpace(raw))
  }

  lemma {:induction false} TrimsFront(before: string, s: string)
    requires forall i :: 0 <= i < |before| ==> IsSpace(before[i])
    ensures TrimSpace(before + s) == TrimSpace(s)
  {
    if before == "" {
      assert before + s == s;
    } else {
      assert (before + s)[0] == before[0] && (before + s)[1..] == before[1..] + s;
      TrimsFront(before[1..], s);
    }
  }

  lemma {:induction false} TrimsBack(s: string, after: string)
    requires forall i :: 0 <= i < |after| ==> IsSpace(after[i])
    ensures TrimSpace(s + after) == TrimSpace(s)
    decreases |s| + |after|
  {
    if after == "" {
      assert s + after == s;
    } else if s == "" {
      assert s + after == after;
      AllBlank(after);
    } else if IsSpace(s[0]) {
      assert (s + after)[0] == s[0] && (s + after)[1..] == s[1..] + after;
      TrimsBack(s[1..], after);
    } else {
      var t, n := s + after, |s + after| - 1;
      assert t[0] == s[0] && t[n] == after[|after| - 1] && t[..n] == s + after[..|after| - 1];
      TrimsBack(s, after[..|after| - 1]);
    }
  }

  /** Blanks around a configured entry do not matter. */
  lemma NormalIgnoresBlanks(before: string, entry: string, after: string)
    requires forall i :: 0 <= i < |before| ==> IsSpace(before[i])
    requires forall i :: 0 <= i < |after| ==> IsSpace(after[i])
    ensures Normal(before + entry + after) == Normal(entry)
  {
    TrimsBack(before + entry, after);
    TrimsFront(before, entry);
  }

  lemma {:induction false} AllBlank(s: string)
    requires forall i :: 0 <= i < |s| ==> IsSpace(s[i])
    ensures TrimSpace(s) == ""
  {
    if s != "" {
      AllBlank(s[1..]);
    }
  }

  // ------------------------------------------------------------ parsing

  predicate OccursAt(s: string, i: int, t: string) {
    0 <= i <= |s| - |t| && s[i..i + |t|] == t
  }

  predicate Contains(s: string, t: string) {
    exists i :: 0 <= i <= |s| && OccursAt(s, i, t)
  }

  /** parseAllowlistEntry: Some(p) for the tree below p, None for a literal path. */
  function ParseEntry(entry: string): Result<Option<string>, EntryError> {
    if entry == "**" then Err(BareStars)
    else if HasPrefix(entry, "/") then Err(LeadingSlash)
    else if Contains(entry, "//") then Err(DoubleSlash)
    else if HasSuffix(entry, TREE_SUFFIX) then
      var p := entry[..|entry| - 3];
      if '*' in p then Err(StrayStar) else Ok(Some(p))
    else if '*' in entry then Err(StrayStar)
    else Ok(None)
  }

  /** A path without stars, empty segments in the middle, or a slash in front. */
  predicate PlainPath(p: string) {
    '*' !in p && !HasPrefix(p, "/") && !Contains(p, "//")
  }

  /** A path, or a path that ends in a segment, followed by the tree suffix. */
  predicate WellFormedEntry(entry: string) {
    PlainPath(entry) || WellFormedTree(entry)
  }

  predicate WellFormedTree(entry: string) {
    |entry| > 3 && HasSuffix(entry, TREE_SUFFIX) && PlainPath(entry[..|entry| - 3]) && entry[|entry| - 4] != '/'
  }

  /** The branches of the parser accept exactly the two forms of entries. */
  lemma EntryAcceptedIff(entry: string)
    ensures ParseEntry(entry).Ok? <==> WellFormedEntry(entry)
    ensures ParseEntry(entry).Ok? ==>
              ParseEntry(entry).value == if HasSuffix(entry, TREE_SUFFIX) then Some(entry[..|entry| - 3]) else None
  {
    if HasSuffix(entry, TREE_SUFFIX) {
      assert entry[|entry| - 1] == '*' && '*' in entry;
      TreeSlashes(entry);
    } else if WellFormedEntry(entry) {
      assert '*' !in entry;
    }
  }

  /** Taking the tree suffix off and putting it on again keeps the slashes. */
  lemma TreeSlashes(entry: string)
    requires HasSuffix(entry, TREE_SUFFIX)
    ensures var p := entry[..|entry| - 3];
            && (Contains(entry, "//") <==> Contains(p, "//") || (|p| > 0 && p[|p| - 1] == '/'))
            && (HasPrefix(entry, "/") <==> p == "" || HasPrefix(p, "/"))
            && entry == p + TREE_SUFFIX
  {
    var p := entry[..|entry| - 3];
    assert entry == p + TREE_SUFFIX;
    assert entry[|p|] == '/' && entry[|p| + 1] == '*' && entry[|p| + 2] == '*';
    if Contains(entry, "//") {
      var i :| 0 <= i <= |entry| && OccursAt(entry, i, "//");
      assert entry[i] == entry[i..i + 2][0] && entry[i + 1] == entry[i..i + 2][1];
      if i + 2 <= |p| {
        assert OccursAt(p, i, "//");
      }
    }
    if Contains(p, "//") {
      var i :| 0 <= i <= |p| && OccursAt(p, i, "//");
      assert OccursAt(entry, i, "//");
    }
    if |p| > 0 && p[|p| - 1] == '/' {
      assert OccursAt(entry, |p| - 1, "//");
    }
  }

  // ------------------------------------------------------------ what is configured

  /** An entry is the repository, or a tree above it. */
  predicate Matches(entry: string, repo: string) {
    entry == repo || (HasSuffix(entry, TREE_SUFFIX) && Below(entry[..|entry| - 3], repo))
  }

  /** `repo` is `p`, a slash, and something more. */
  predicate Below(p: string, repo: string) {
    |repo| > |p| + 1 && HasPrefix(repo, p + "/")
  }

  predicate Blank(raw: string) {
    Normal(raw) == ""
  }

  /** How the configuration is meant: no entries allow everything; otherwise
      some entry has to match. */
  ghost predicate Permits(entries: seq<string>, repo: string) {
    (forall raw | raw in entries :: Blank(raw)) || exists raw :: raw in entries && !Blank(raw) && Matches(Normal(raw), repo)
  }

  predicate Malformed(raw: string) {
    !Blank(raw) && !WellFormedEntry(Normal(raw))
  }

  // ------------------------------------------------------------ compiling

  /** The compiled form; the nil allowlist is None. */
  datatype RepoAllowlist = RepoAllowlist(exact: set<string>, prefixes: seq<string>)

  predicate Hit(prefix: string, repo: string) {
    |repo| > |prefix| && HasPrefix(repo, prefix)
  }

  predicate Allowed(a: RepoAllowlist, repo: string) {
    repo in a.exact || exists i :: 0 <= i < |a.prefixes| && Hit(a.prefixes[i], repo)
  }

  /** What the compiled form of the first k entries has to be. */
  ghost predicate CompiledFrom(a: RepoAllowlist, entries: seq<string>, k: nat)
    requires k <= |entries|
  {
    && (forall i :: 0 <= i < k ==> !Malformed(entries[i]))
    && (forall e :: e in a.exact <==> exists i :: 0 <= i < k && IsLiteral(entries[i], e))
    && (forall j :: 0 <= j < |a.prefixes| ==> exists i :: 0 <= i < k && IsTree(entries[i], a.prefixes[j]))
    && (forall i :: 0 <= i < k && IsTreeEntry(entries[i]) ==> TreePrefix(entries[i]) in a.prefixes)
  }

  predicate IsLiteral(raw: string, e: string) {
    !Blank(raw) && Normal(raw) == e && !HasSuffix(e, TREE_SUFFIX)
  }

  predicate IsTreeEntry(raw: string) {
    !Blank(raw) && HasSuffix(Normal(raw), TREE_SUFFIX)
  }

  function TreePrefix(raw: string): string
    requires IsTreeEntry(raw)
  {
    Normal(raw)[..|Normal(raw)| - 3] + "/"
  }

  predicate IsTree(raw: string, prefix: string) {
    IsTreeEntry(raw) && prefix == TreePrefix(raw)
  }

  /** What one sound entry adds. */
  function Added(a: RepoAllowlist, raw: string): RepoAllowlist {
    if Blank(raw) then a
    else if IsTreeEntry(raw) then a.(prefixes := a.prefixes + [TreePrefix(raw)])
    else a.(exact := a.exact + {Normal(raw)})
  }

  lemma CompilesOneMore(a: RepoAllowlist, entries: seq<string>, k: nat)
    requires k < |entries| && CompiledFrom(a, entries, k) && !Malformed(entries[k])
    ensures CompiledFrom(Added(a, entries[k]), entries, k + 1)
  {
    var raw, n := entries[k], k + 1;
    var a' := Added(a, raw);
    forall e ensures e in a'.exact <==> exists i :: 0 <= i < n && IsLiteral(entries[i], e) {
      if e in a.exact {
        var i :| 0 <= i < k && IsLiteral(entries[i], e);
      } else if e in a'.exact {
        assert IsLiteral(raw, e);
      }
    }
    forall j | 0 <= j < |a'.prefixes| ensures exists i :: 0 <= i < n && IsTree(entries[i], a'.prefixes[j]) {
      if j < |a.prefixes| {
        var i :| 0 <= i < k && IsTree(entries[i], a.prefixes[j]);
        assert a'.prefixes[j] == a.prefixes[j];
      } else {
        assert IsTree(raw, a'.prefixes[j]);
      }
    }
  }

  /** NewRepoAllowlist: fails on the first malformed entry, and only then. */
  method New(entries: seq<string>) returns (r: Result<Option<RepoAllowlist>, EntryError>)
    ensures r.Err? <==> exists i :: 0 <= i < |entries| && Malformed(entries[i])
    ensures r.Err? ==> exists i :: 0 <= i < |entries| && FailsFirst(entries, i, r.error)
    ensures r.Ok? && r.value.None? ==> CompiledFrom(RepoAllowlist({}, []), entries, |entries|)
    ensures r.Ok? && r.value.Some? ==> CompiledFrom(r.value.value, entries, |entries|)
                                       && (r.value.value.exact != {} || r.value.value.prefixes != [])
  {
    var a := RepoAllowlist({}, []);
    for i := 0 to |entries|
      invariant CompiledFrom(a, entries, i)
    {
      var entry := Normal(entries[i]);
      if entry == "" {
        CompilesOneMore(a, entries, i);
        continue;
      }
      EntryAcceptedIff(entry);
      var parsed := ParseEntry(entry);
      if parsed.Err? {
        assert FailsFirst(entries, i, parsed.error);
        return Err(parsed.error);
      }
      CompilesOneMore(a, entries, i);
      if parsed.value.Some? {
        a := a.(prefixes := a.prefixes + [parsed.value.value + "/"]);
        continue;
      }
      a := a.(exact := a.exact + {entry});
    }
    if |a.exact| == 0 && |a.prefixes| == 0 {
      return Ok(None);
    }
    return Ok(Some(a));
  }

  predicate FailsFirst(entries: seq<string>, i: int, error: EntryError) {
    && 0 <= i < |entries| && Malformed(entries[i]) && ParseEntry(Normal(entries[i])) == Err(error)
    && forall j :: 0 <= j < i ==> !Malformed(entries[j])
  }

  /** Allow. */
  method Allow(a: Option<RepoAllowlist>, repo: string) returns (ok: bool)
    ensures ok <==> a.None? || Allowed(a.value, repo)
  {
    if a.None? {
      return true;
    }
    if repo in a.value.exact {
      return true;
    }
    for i := 0 to |a.value.prefixes|
      invariant forall j :: 0 <= j < i ==> !Hit(a.value.prefixes[j], repo)
    {
      var p := a.value.prefixes[i];
      if |repo| > |p| && HasPrefix(repo, p) {
        return true;
      }
    }
    return false;
  }

  // ------------------------------------------------------------ refinement

  lemma TreeHits(raw: string, repo: string)
    requires IsTreeEntry(raw)
    ensures Hit(TreePrefix(raw), repo) <==> Below(Normal(raw)[..|Normal(raw)| - 3], repo)
    ensures Normal(raw) == repo ==> Hit(TreePrefix(raw), repo)
  {
    var e := Normal(raw);
    assert e == e[..|e| - 3] + TREE_SUFFIX;
  }

  /** The compiled matcher means what the configuration says. */
  lemma CompiledPermits(a: RepoAllowlist, entries: seq<string>, repo: string)
    requires CompiledFrom(a, entries, |entries|) && (a.exact != {} || a.prefixes != [])
    ensures Allowed(a, repo) <==> Permits(entries, repo)
  {
    SomeEntry(a, entries);
    if Allowed(a, repo) {
      if repo in a.exact {
        var i :| 0 <= i < |entries| && IsLiteral(entries[i], repo);
        assert entries[i] in entries && Matches(Normal(entries[i]), repo);
      } else {
        var j :| 0 <= j < |a.prefixes| && Hit(a.prefixes[j], repo);
        var i :| 0 <= i < |entries| && IsTree(entries[i], a.prefixes[j]);
        TreeHits(entries[i], repo);
        assert entries[i] in entries && Matches(Normal(entries[i]), repo);
      }
    }
    if raw :| raw in entries && !Blank(raw) && Matches(Normal(raw), repo) {
      var i :| 0 <= i < |entries| && entries[i] == raw;
      if IsTreeEntry(raw) {
        TreeHits(raw, repo);
        var j :| 0 <= j < |a.prefixes| && a.prefixes[j] == TreePrefix(raw);
      } else {
        assert IsLiteral(entries[i], repo);
      }
    }
  }

  lemma SomeEntry(a: RepoAllowlist, entries: seq<string>)
    requires CompiledFrom(a, entries, |entries|)
    ensures (a.exact != {} || a.prefixes != []) <==> exists raw :: raw in entries && !Blank(raw)
  {
    forall raw | raw in entries && !Blank(raw) ensures a.exact != {} || a.prefixes != [] {
      var i :| 0 <= i < |entries| && entries[i] == raw;
      if IsTreeEntry(raw) {
        assert TreePrefix(entries[i]) in a.prefixes;
      } else {
        assert IsLiteral(entries[i], Normal(raw));
        assert Normal(raw) in a.exact;
      }
    }
    if a.prefixes != [] {
      var i :| 0 <= i < |entries| && IsTree(entries[i], a.prefixes[0]);
      assert entries[i] in entries;
    } else if e :| e in a.exact {
      var i :| 0 <= i < |entries| && IsLiteral(entries[i], e);
      assert entries[i] in entries;
    }
  }

  /** Compiling and then asking: the whole of NewRepoAllowlist and Allow against
      the plain reading of the entries. */
  method Decide(entries: seq<string>, repo: string) returns (r: Result<bool, EntryError>)
    ensures r.Err? <==> exists i :: 0 <= i < |entries| && Malformed(entries[i])
    ensures r.Ok? ==> (r.value <==> Permits(entries, repo))
  {
    var compiled := New(entries);
    match compiled {
      case Err(e) => r := Err(e);
      case Ok(a) =>
        var ok := Allow(a, repo);
        if a.Some? {
          CompiledPermits(a.value, entries, repo);
        } else {
          SomeEntry(RepoAllowlist({}, []), entries);
        }
        r := Ok(ok);
    }
  }

  /** Neither the order of the entries nor repetition matters. */
  lemma OrderDoesNotMatter(entries: seq<string>, others: seq<string>, repo: string)
    requires forall raw :: raw in entries <==> raw in others
    ensures Permits(entries, repo) <==> Permits(others, repo)
    ensures (exists i :: 0 <= i < |entries| && Malformed(entries[i])) <==> (exists i :: 0 <= i < |others| && Malformed(others[i]))
  {
    if i :| 0 <= i < |entries| && Malformed(entries[i]) {
      assert entries[i] in others;
    }
    if i :| 0 <= i < |others| && Malformed(others[i]) {
      assert others[i] in entries;
    }
  }
}

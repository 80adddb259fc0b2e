/**
  The translation bundle: one table of messages per language, loaded from
  the `*.json` files of a directory, with language negotiation and message
  lookup with fallback and `{name}` placeholder substitution.
*/
module I18n {
  import opened Wrappers
  import opened Text

  // ---- loading ----

  /** What walking the directory yields, in walk order. A file's contents are
      the decoded table, or why reading or decoding it failed. */
  datatype DirEntry =
    | WalkFailed(path: string)
    | Dir(name: string)
    | File(name: string, contents: Result<map<string, string>, string>)

  datatype LoadError = WalkError(path: string) | FileError(name: string, reason: string)

  /** Only files named `*.json` are read. */
  predicate IsTable(e: DirEntry) {
    e.File? && HasSuffix(e.name, ".json")
  }

  /** The language code of a table file: its name without `.json`, lower-cased. */
  function LangOf(name: string): (r: string)
    ensures ToLower(r) == r
    ensures HasSuffix(name, ".json") ==> |r| == |name| - 5
  {
    ToLowerIdempotent(TrimSuffix(name, ".json"));
    ToLower(TrimSuffix(name, ".json"))
  }

  /** The entry that stops the walk, if any. */
  predicate Fails(e: DirEntry) {
    e.WalkFailed? || (IsTable(e) && e.contents.Err?)
  }

  function FailureOf(e: DirEntry): LoadError
    requires Fails(e)
  {
    if e.WalkFailed? then WalkError(e.path) else FileError(e.name, e.contents.error)
  }

  /** The first entry in walk order that stops the walk. */
  function FirstFailure(files: seq<DirEntry>): Option<LoadError>
  {
    if files == [] then None
    else if Fails(files[0]) then Some(FailureOf(files[0]))
    else FirstFailure(files[1..])
  }

  /** The walk completes exactly when no entry stops it. */
  lemma {:induction false} FirstFailureNone(files: seq<DirEntry>)
    ensures FirstFailure(files).None? <==> forall i :: 0 <= i < |files| ==> !Fails(files[i])
  {
    if files != [] && !Fails(files[0]) {
      FirstFailureNone(files[1..]);
      assert forall i :: 1 <= i < |files| ==> files[i] == files[1..][i - 1];
    }
  }

  /** Otherwise it reports the entry `k` that stopped it, with nothing failing before it. */
  lemma {:induction false} FirstFailureAt(files: seq<DirEntry>) returns (k: nat)
    requires FirstFailure(files).Some?
    ensures k < |files| && Fails(files[k]) && FirstFailure(files).value == FailureOf(files[k])
    ensures forall j :: 0 <= j < k ==> !Fails(files[j])
  {
    if Fails(files[0]) {
      k := 0;
    } else {
      var k' := FirstFailureAt(files[1..]);
      k := k' + 1;
      assert files[k] == files[1..][k'];
      forall j | 0 <= j < k
        ensures !Fails(files[j])
      {
        if j > 0 {
          assert files[j] == files[1..][j - 1];
        }
      }
    }
  }

  lemma {:induction false} FirstFailureAppend(a: seq<DirEntry>, b: seq<DirEntry>)
    requires FirstFailure(a).None?
    ensures FirstFailure(a + b) == FirstFailure(b)
  {
    if a != [] {
      assert (a + b)[0] == a[0] && !Fails(a[0]);
      assert (a + b)[1..] == a[1..] + b;
      assert FirstFailure(a[1..]).None?;
      FirstFailureAppend(a[1..], b);
      assert FirstFailure(a + b) == FirstFailure((a + b)[1..]);
    } else {
      assert a + b == b;
    }
  }

  /** The raw table of each language, the last file for a language winning. */
  function Tables(files: seq<DirEntry>): (r: map<string, map<string, string>>)
    ensures |r| <= |files|
  {
    if files == [] then map[]
    else
      var t := Tables(files[..|files| - 1]);
      var e := files[|files| - 1];
      if IsTable(e) && e.contents.Ok? then t[LangOf(e.name) := e.contents.value] else t
  }

  /** A later file for a language replaces the tables of the files before it. */
  lemma {:induction false} TablesLaterWins(a: seq<DirEntry>, b: seq<DirEntry>, lang: string)
    ensures lang in Tables(b) ==> lang in Tables(a + b) && Tables(a + b)[lang] == Tables(b)[lang]
    ensures lang !in Tables(b) ==> (lang in Tables(a + b) <==> lang in Tables(a))
    ensures lang !in Tables(b) && lang in Tables(a) ==> Tables(a + b)[lang] == Tables(a)[lang]
    decreases |b|
  {
    if b != [] {
      var b' := b[..|b| - 1];
      assert (a + b)[..|a + b| - 1] == a + b';
      assert (a + b)[|a + b| - 1] == b[|b| - 1];
      TablesLaterWins(a, b', lang);
    } else {
      assert a + b == a;
    }
  }

  /** Every language code comes from a readable `*.json` file, and is lower-case. */
  lemma {:induction false} TablesLangs(files: seq<DirEntry>, lang: string)
    requires lang in Tables(files)
    ensures exists i :: 0 <= i < |files| && IsTable(files[i]) && files[i].contents.Ok? && LangOf(files[i].name) == lang
    ensures ToLower(lang) == lang
    decreases |files|
  {
    var e := files[|files| - 1];
    if IsTable(e) && e.contents.Ok? && LangOf(e.name) == lang {
      ToLowerIdempotent(TrimSuffix(e.name, ".json"));
    } else {
      var p := files[..|files| - 1];
      TablesLangs(p, lang);
      var i :| 0 <= i < |p| && IsTable(p[i]) && p[i].contents.Ok? && LangOf(p[i].name) == lang;
      assert files[i] == p[i];
    }
  }

  /** `norm` is the table `m` with every key trimmed of surrounding whitespace.
      When two keys trim alike, either value may be the one kept. */
  predicate IsNormalisation(m: map<string, string>, norm: map<string, string>) {
    && (forall k :: k in m ==> TrimSpace(k) in norm)
    && (forall t :: t in norm ==> exists k :: k in m && TrimSpace(k) == t && norm[t] == m[k])
  }

  /** The keys of a table trimmed, in the table's own (unspecified) order. */
  method Normalise(m: map<string, string>) returns (norm: map<string, string>)
    ensures IsNormalisation(m, norm)
  {
    norm := map[];
    var rest := m.Keys;
    while rest != {}
      invariant rest <= m.Keys
      invariant forall k :: k in m && k !in rest ==> TrimSpace(k) in norm
      invariant forall t :: t in norm ==> exists k :: k in m && TrimSpace(k) == t && norm[t] == m[k]
      decreases |rest|
    {
      var k :| k in rest;
      norm := norm[TrimSpace(k) := m[k]];
      rest := rest - {k};
    }
  }

  /** Every key of a normalised table is trimmed. */
  lemma NormalisedKeysTrimmed(m: map<string, string>, norm: map<string, string>, t: string)
    requires IsNormalisation(m, norm) && t in norm
    ensures TrimSpace(t) == t
  {
    var k :| k in m && TrimSpace(k) == t && norm[t] == m[k];
    TrimSpaceIdempotent(k);
  }

  /** When no two keys trim alike, each value stays under its trimmed key. */
  lemma NormalisationKeepsValues(m: map<string, string>, norm: map<string, string>, k: string)
    requires IsNormalisation(m, norm) && k in m
    requires forall k1, k2 :: k1 in m && k2 in m && TrimSpace(k1) == TrimSpace(k2) ==> k1 == k2
    ensures TrimSpace(k) in norm && norm[TrimSpace(k)] == m[k]
  {
    var k' :| k' in m && TrimSpace(k') == TrimSpace(k) && norm[TrimSpace(k)] == m[k'];
  }

  class Bundle {
    var defaultLanguage: string
    var langs: map<string, map<string, string>>

    constructor (defaultLanguage: string)
      ensures this.defaultLanguage == ToLower(defaultLanguage) && langs == map[]
    {
      this.defaultLanguage := ToLower(defaultLanguage);
      langs := map[];
    }

    /** The language to answer in: an exact loaded match, else the part before
        the first '-', else the default, else some loaded language. */
    method BestLang(requested: string) returns (lang: string)
      ensures Negotiate(langs.Keys, defaultLanguage, requested).Some? ==>
        lang == Negotiate(langs.Keys, defaultLanguage, requested).value
      ensures Negotiate(langs.Keys, defaultLanguage, requested).None? ==>
        (if langs == map[] then lang == defaultLanguage else lang in langs)
      ensures lang in langs || lang == defaultLanguage
    {
      var n := Negotiate(langs.Keys, defaultLanguage, requested);
      if n.Some? {
        return n.value;
      }
      if langs != map[] {
        var k :| k in langs;
        return k;
      }
      return defaultLanguage;
    }

    /** The message for `key`: from `lang`, else from the default language,
        else the key itself; an empty message counts as missing. */
    function Lookup(lang: string, key: string): (r: string)
      reads this
      ensures Has(langs, lang, key) ==> r == langs[lang][key]
      ensures !Has(langs, lang, key) && Has(langs, defaultLanguage, key) ==> r == langs[defaultLanguage][key]
      ensures !Has(langs, lang, key) && !Has(langs, defaultLanguage, key) ==> r == key
      ensures r == "" ==> key == ""
    {
      var v := if lang in langs && key in langs[lang] then langs[lang][key] else "";
      var v := if v == "" && defaultLanguage in langs && key in langs[defaultLanguage] then langs[defaultLanguage][key] else v;
      if v == "" then key else v
    }

    /** The translated message with its placeholders filled from `data`; with
        no data the message is returned as looked up. */
    function T(lang: string, key: string, data: map<string, Option<string>>): (r: string)
      reads this
      ensures |data| == 0 ==> r == Lookup(lang, key)
      ensures |data| > 0 ==> r == Substitute(Lookup(lang, key), data)
    {
      var v := Lookup(lang, key);
      if |data| == 0 then v else Substitute(v, data)
    }
  }

  /** The bundle's tables are the raw tables of `files`, each with its keys trimmed. */
  predicate NormalisedTables(raw: map<string, map<string, string>>, langs: map<string, map<string, string>>) {
    langs.Keys == raw.Keys && forall l :: l in langs ==> IsNormalisation(raw[l], langs[l])
  }

  lemma NormalisedTablesUpdate(raw: map<string, map<string, string>>, langs: map<string, map<string, string>>,
                               lang: string, m: map<string, string>, norm: map<string, string>)
    requires NormalisedTables(raw, langs) && IsNormalisation(m, norm)
    ensures NormalisedTables(raw[lang := m], langs[lang := norm])
  {
    var raw', langs' := raw[lang := m], langs[lang := norm];
    assert langs'.Keys == raw'.Keys;
    forall l | l in langs'
      ensures IsNormalisation(raw'[l], langs'[l])
    {
      if l != lang {
        assert raw'[l] == raw[l] && langs'[l] == langs[l];
      }
    }
  }

  /** One more entry read, when the walk has not stopped before it. */
  lemma FirstFailureSnoc(files: seq<DirEntry>, i: nat)
    requires i < |files| && FirstFailure(files[..i]).None?
    ensures !Fails(files[i]) ==> FirstFailure(files[..i + 1]).None?
    ensures Fails(files[i]) ==> FirstFailure(files) == Some(FailureOf(files[i]))
  {
    assert files[..i + 1] == files[..i] + [files[i]];
    FirstFailureAppend(files[..i], [files[i]]);
    assert files == files[..i] + files[i..];
    FirstFailureAppend(files[..i], files[i..]);
  }

  /** One more entry read. */
  lemma TablesSnoc(files: seq<DirEntry>, i: nat)
    requires i < |files|
    ensures Tables(files[..i + 1]) ==
      if IsTable(files[i]) && files[i].contents.Ok? then Tables(files[..i])[LangOf(files[i].name) := files[i].contents.value]
      else Tables(files[..i])
  {
    assert files[..i + 1][..i] == files[..i];
  }

  /** Load: walk the entries in order, stopping at the first failure; every
      readable `*.json` file becomes its language's table with trimmed keys. */
  method Load(files: seq<DirEntry>, defaultLanguage: string) returns (b: Bundle?, err: Option<LoadError>)
    ensures err == FirstFailure(files)
    ensures b == null <==> err.Some?
    ensures b != null ==> fresh(b) && b.defaultLanguage == ToLower(defaultLanguage)
    ensures b != null ==> NormalisedTables(Tables(files), b.langs)
  {
    var bundle := new Bundle(defaultLanguage);
    var i := 0;
    while i < |files|
      invariant 0 <= i <= |files|
      invariant FirstFailure(files[..i]).None?
      invariant bundle.defaultLanguage == ToLower(defaultLanguage)
      invariant NormalisedTables(Tables(files[..i]), bundle.langs)
    {
      var e := files[i];
      FirstFailureSnoc(files, i);
      if Fails(e) {
        return null, Some(FailureOf(e));
      }
      TablesSnoc(files, i);
      if IsTable(e) {
        var norm := Normalise(e.contents.value);
        NormalisedTablesUpdate(Tables(files[..i]), bundle.langs, LangOf(e.name), e.contents.value, norm);
        bundle.langs := bundle.langs[LangOf(e.name) := norm];
      }
      i := i + 1;
    }
    assert files[..i] == files;
    return bundle, None;
  }

  // ---- negotiation ----

  /** The deterministic part of BestLang over the loaded codes `langs`:
      the normalised request when loaded, else its part before the first '-'
      when that is non-empty and loaded, else the default when loaded, and
      nothing when none of these applies. */
  function Negotiate(langs: set<string>, def: string, requested: string): (r: Option<string>)
    ensures r.Some? ==> r.value in langs
    ensures ToLower(TrimSpace(requested)) in langs ==> r == Some(ToLower(TrimSpace(requested)))
    ensures var req := ToLower(TrimSpace(requested));
      var d := IndexByte(req, '-');
      var baseLoaded := d.Some? && d.value > 0 && req[..d.value] in langs;
      && (req !in langs && baseLoaded ==> r == Some(req[..d.value]))
      && (req !in langs && !baseLoaded && def in langs ==> r == Some(def))
      && (r.None? <==> req !in langs && !baseLoaded && def !in langs)
    ensures def in langs ==> r.Some?
  {
    var req := ToLower(TrimSpace(requested));
    if req in langs then Some(req)
    else
      var dash := IndexByte(req, '-');
      if dash.Some? && dash.value > 0 && req[..dash.value] in langs then Some(req[..dash.value])
      else if def in langs then Some(def)
      else None
  }

  /** A request for an unloaded language without a region falls back to the
      default, not to some other loaded language. */
  lemma NegotiateDefault()
    ensures Negotiate({"en", "fr"}, "en", "de") == Some("en")
  {
    var req := ToLower(TrimSpace("de"));
    assert TrimSpace("de") == "de";
    assert ToLower("de") == "de";
    assert req !in {"en", "fr"};
    assert IndexByte(req, '-').None?;
  }

  /** Lower-casing keeps a trimmed string trimmed. */
  lemma TrimSpaceToLower(t: string)
    requires TrimSpace(t) == t
    ensures TrimSpace(ToLower(t)) == ToLower(t)
  {
    TrimmedEnds(t);
    TrimmedEnds(ToLower(t));
  }

  /** The request's case and surrounding whitespace do not matter. */
  lemma NegotiateNormalises(langs: set<string>, def: string, requested: string)
    ensures Negotiate(langs, def, requested) == Negotiate(langs, def, ToLower(TrimSpace(requested)))
  {
    var t := TrimSpace(requested);
    TrimSpaceIdempotent(requested);
    TrimSpaceToLower(t);
    ToLowerIdempotent(t);
  }

  /** `base-region` built from lower-case words without spaces is already normalised, and its first '-' follows `base`. */
  lemma RegionRequest(base: string, region: string)
    requires '-' !in base && NoSpace(base) && NoSpace(region)
    requires ToLower(base) == base && ToLower(region) == region
    ensures NoSpace(base + "-" + region) && ToLower(base + "-" + region) == base + "-" + region
    ensures IndexByte(base + "-" + region, '-') == Some(|base|) && (base + "-" + region)[..|base|] == base
  {
    var s := base + "-" + region;
    forall k | 0 <= k < |s|
      ensures !IsSpace(s[k]) && LowerChar(s[k]) == s[k]
    {
      if k < |base| {
        assert s[k] == base[k] && ToLower(base)[k] == LowerChar(base[k]);
      } else if k > |base| {
        assert s[k] == region[k - |base| - 1] && ToLower(region)[k - |base| - 1] == LowerChar(region[k - |base| - 1]);
      }
    }
    assert s[|base|] == '-' && s[..|base|] == base;
  }

  /** A request for a regional variant falls back to its base language. */
  lemma NegotiateRegion(langs: set<string>, def: string, base: string, region: string)
    requires base != [] && '-' !in base && NoSpace(base) && NoSpace(region)
    requires ToLower(base) == base && ToLower(region) == region
    requires base + "-" + region !in langs && base in langs
    ensures Negotiate(langs, def, base + "-" + region) == Some(base)
  {
    RegionRequest(base, region);
    TrimSpaceNoSpace(base + "-" + region);
  }

  // ---- placeholders ----

  /** A character of a placeholder name: `[a-zA-Z0-9_.-]`. */
  predicate NameChar(c: char) {
    ('a' <= c <= 'z') || ('A' <= c <= 'Z') || ('0' <= c <= '9') || c == '_' || c == '.' || c == '-'
  }

  /** The length of the longest run of name characters `s` starts with. */
  function NameLen(s: string): (n: nat)
    ensures n <= |s|
  {
    if s != [] && NameChar(s[0]) then 1 + NameLen(s[1..]) else 0
  }

  lemma {:induction false} NameLenIsLongest(s: string)
    ensures forall i :: 0 <= i < NameLen(s) ==> NameChar(s[i])
    ensures NameLen(s) < |s| ==> !NameChar(s[NameLen(s)])
  {
    if s != [] && NameChar(s[0]) {
      NameLenIsLongest(s[1..]);
      assert forall i :: 1 <= i < NameLen(s) ==> s[i] == s[1..][i - 1];
    }
  }

  /** `s` starts with `{name}`. */
  predicate PlaceholderAt(s: string) {
    s != [] && s[0] == '{' && 0 < NameLen(s[1..]) && 1 + NameLen(s[1..]) < |s| && s[1 + NameLen(s[1..])] == '}'
  }

  /** A message read left to right: placeholders, and the characters between them. */
  datatype Piece = Char(c: char) | Placeholder(name: string)

  function Pieces(s: string): seq<Piece>
    decreases |s|
  {
    if s == [] then []
    else if PlaceholderAt(s) then
      var n := NameLen(s[1..]);
      [Placeholder(s[1..n + 1])] + Pieces(s[n + 2..])
    else [Char(s[0])] + Pieces(s[1..])
  }

  function Raw(p: Piece): string {
    match p
    case Char(c) => [c]
    case Placeholder(name) => "{" + name + "}"
  }

  /** A placeholder becomes its value when `data` has a non-nil one, and stays as written otherwise. */
  function Fill(p: Piece, data: map<string, Option<string>>): string {
    if p.Placeholder? && p.name in data && data[p.name].Some? then data[p.name].value else Raw(p)
  }

  function Render(ps: seq<Piece>, data: map<string, Option<string>>): string {
    if ps == [] then [] else Fill(ps[0], data) + Render(ps[1..], data)
  }

  /** Every `{name}` replaced, left to right and without rescanning what was put in. */
  function Substitute(s: string, data: map<string, Option<string>>): string {
    Render(Pieces(s), data)
  }

  lemma RenderCons(p: Piece, ps: seq<Piece>, data: map<string, Option<string>>)
    ensures Render([p] + ps, data) == Fill(p, data) + Render(ps, data)
  {
    assert ([p] + ps)[0] == p && ([p] + ps)[1..] == ps;
  }

  lemma PlaceholderSplit(s: string, n: nat)
    requires PlaceholderAt(s) && n == NameLen(s[1..])
    ensures s == "{" + s[1..n + 1] + "}" + s[n + 2..]
  {
    var u := "{" + s[1..n + 1] + "}" + s[n + 2..];
    assert |u| == |s|;
    forall i | 0 <= i < |s|
      ensures u[i] == s[i]
    {
      if i == 0 {
      } else if i <= n {
        assert u[i] == s[1..n + 1][i - 1];
      } else if i == n + 1 {
      } else {
        assert u[i] == s[n + 2..][i - n - 2];
      }
    }
  }

  lemma RawPlaceholderStep(s: string, n: nat)
    requires PlaceholderAt(s) && n == NameLen(s[1..])
    requires Render(Pieces(s[n + 2..]), map[]) == s[n + 2..]
    ensures Render(Pieces(s), map[]) == s
  {
    var rest := s[n + 2..];
    assert Pieces(s) == [Placeholder(s[1..n + 1])] + Pieces(rest);
    RenderCons(Placeholder(s[1..n + 1]), Pieces(rest), map[]);
    PlaceholderSplit(s, n);
  }

  lemma RawCharStep(s: string)
    requires s != [] && !PlaceholderAt(s)
    requires Render(Pieces(s[1..]), map[]) == s[1..]
    ensures Render(Pieces(s), map[]) == s
  {
    SubstituteChar(s, map[]);
    assert s == [s[0]] + s[1..];
  }

  /** Reading a message into pieces loses nothing: written back, they are the message. */
  lemma {:induction false} PiecesRaw(s: string)
    ensures Render(Pieces(s), map[]) == s
    decreases |s|
  {
    if s != [] {
      if PlaceholderAt(s) {
        var n := NameLen(s[1..]);
        PiecesRaw(s[n + 2..]);
        RawPlaceholderStep(s, n);
      } else {
        PiecesRaw(s[1..]);
        RawCharStep(s);
      }
    }
  }

  /** Every placeholder found has a non-empty name of name characters. */
  lemma {:induction false} PiecesNames(s: string)
    ensures forall p :: p in Pieces(s) && p.Placeholder? ==>
      p.name != [] && forall i :: 0 <= i < |p.name| ==> NameChar(p.name[i])
    decreases |s|
  {
    if s != [] {
      if PlaceholderAt(s) {
        var n := NameLen(s[1..]);
        PiecesNames(s[n + 2..]);
        NameLenIsLongest(s[1..]);
        assert forall i :: 0 <= i < n ==> s[1..n + 1][i] == s[1..][i];
      } else {
        PiecesNames(s[1..]);
      }
    }
  }

  /** Data without a non-nil value for any name changes nothing. */
  lemma {:induction false} RenderNoValues(ps: seq<Piece>, data: map<string, Option<string>>)
    requires forall name :: name in data ==> data[name].None?
    ensures Render(ps, data) == Render(ps, map[])
  {
    if ps != [] {
      RenderNoValues(ps[1..], data);
    }
  }

  lemma SubstituteNoValues(s: string, data: map<string, Option<string>>)
    requires forall name :: name in data ==> data[name].None?
    ensures Substitute(s, data) == s
  {
    RenderNoValues(Pieces(s), data);
    PiecesRaw(s);
  }

  /** A name followed by a character that cannot continue it is read whole. */
  lemma {:induction false} NameLenOf(name: string, rest: string)
    requires forall i :: 0 <= i < |name| ==> NameChar(name[i])
    requires rest == [] || !NameChar(rest[0])
    ensures NameLen(name + rest) == |name|
  {
    if name != [] {
      assert (name + rest)[0] == name[0] && (name + rest)[1..] == name[1..] + rest;
      NameLenOf(name[1..], rest);
    } else {
      assert name + rest == rest;
    }
  }

  /** `{name}` at the front of a message is a placeholder and is filled by the
      value `data` has for `name`; the value is not scanned again. */
  lemma SubstitutePlaceholder(name: string, rest: string, data: map<string, Option<string>>)
    requires name != [] && forall i :: 0 <= i < |name| ==> NameChar(name[i])
    ensures Substitute("{" + name + "}" + rest, data) == Fill(Placeholder(name), data) + Substitute(rest, data)
  {
    var s := "{" + name + "}" + rest;
    assert s[1..] == name + ("}" + rest);
    NameLenOf(name, "}" + rest);
    assert s[|name| + 1] == '}';
    assert PlaceholderAt(s);
    assert s[1..|name| + 1] == name && s[|name| + 2..] == rest;
    assert Pieces(s) == [Placeholder(name)] + Pieces(rest);
    RenderCons(Placeholder(name), Pieces(rest), data);
  }

  /** Any other character at the front is kept as it is. */
  lemma SubstituteChar(s: string, data: map<string, Option<string>>)
    requires s != [] && !PlaceholderAt(s)
    ensures Substitute(s, data) == [s[0]] + Substitute(s[1..], data)
  {
    assert Pieces(s) == [Char(s[0])] + Pieces(s[1..]);
    RenderCons(Char(s[0]), Pieces(s[1..]), data);
  }

  /** Braces around text with a character outside `[a-zA-Z0-9_.-]` (and no
      closing brace) do not open a placeholder, whatever `data` holds. */
  lemma MalformedNotPlaceholder(text: string, rest: string, k: nat)
    requires k < |text| && !NameChar(text[k]) && '}' !in text
    ensures !PlaceholderAt("{" + text + "}" + rest)
  {
    var s := "{" + text + "}" + rest;
    var u := text + ("}" + rest);
    assert s[1..] == u;
    NameLenIsLongest(u);
    assert u[k] == text[k];
    assert NameLen(u) <= k;
  }

  /** Matching starts at the leftmost `{` that opens a placeholder. */
  lemma SubstituteLeftmost()
    ensures Substitute("{{a}}", map["a" := Some("X")]) == "{X}"
  {
    var data := map["a" := Some("X")];
    assert NameLen("{a}}") == 0;
    SubstituteChar("{{a}}", data);
    assert "{{a}}"[1..] == "{" + "a" + "}" + "}";
    SubstitutePlaceholder("a", "}", data);
    SubstituteChar("}", data);
  }

  /** The language lookup with fallback. */
  predicate Has(langs: map<string, map<string, string>>, lang: string, key: string) {
    lang in langs && key in langs[lang] && langs[lang][key] != ""
  }
}

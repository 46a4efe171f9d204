/**
 * Configuration normalisation of the Directus storage driver (storage.py):
 * the `{{ NAME }}` token template language of `parseToken`, the collection
 * name normalisation and the host clean-up done by
 * `DirectusStorageDriver.__init__`. Text is restricted to ASCII semantics.
 */
module Config {
  import opened Wrappers

  // ---------------------------------------------------------------------
  // Character classes (ASCII part of Python's `str.lower`, `\s` and `\w`)
  // ---------------------------------------------------------------------

  /** Python's `str.lower()` on one character, ASCII letters only. */
  function LowerChar(c: char): char
  {
    if 'A' <= c <= 'Z' then (c as int + 32) as char else c
  }

  /** `str.lower()` character by character. */
  function Lower(s: string): (r: string)
    ensures |r| == |s|
    ensures forall i :: 0 <= i < |s| ==> r[i] == LowerChar(s[i])
  {
    seq(|s|, i requires 0 <= i < |s| => LowerChar(s[i]))
  }

  /** The character class `[a-z0-9]` kept by the collection name pattern. */
  predicate IsNameChar(c: char)
  {
    'a' <= c <= 'z' || '0' <= c <= '9'
  }

  /** Python's `\s` on ASCII: space, `\t\n\v\f\r` and the separators 0x1c-0x1f. */
  predicate IsSpace(c: char)
  {
    c == ' ' || 9 <= c as int <= 13 || 28 <= c as int <= 31
  }

  /** Python's `\w` on ASCII: letters, digits and `_`. */
  predicate IsWord(c: char)
  {
    'a' <= c <= 'z' || 'A' <= c <= 'Z' || '0' <= c <= '9' || c == '_'
  }

  // ---------------------------------------------------------------------
  // Collection name: re.sub(r'[^a-z0-9]+', '_', name.lower())
  // ---------------------------------------------------------------------

  /** Drops the leading run of characters outside `[a-z0-9]`. */
  function SkipRun(s: string): (r: string)
    ensures |r| <= |s|
    ensures r == [] || IsNameChar(r[0])
  {
    if s == [] || IsNameChar(s[0]) then s else SkipRun(s[1..])
  }

  /** Replaces each maximal run of characters outside `[a-z0-9]` by one `_`. */
  function CollapseRuns(s: string): string
    decreases |s|
  {
    if s == [] then []
    else if IsNameChar(s[0]) then [s[0]] + CollapseRuns(s[1..])
    else "_" + CollapseRuns(SkipRun(s[1..]))
  }

  /** The collection name sent to the remote (storage.py:213-215). */
  function NormalizeCollection(name: string): string
  {
    CollapseRuns(Lower(name))
  }

  /** A normalised name: only `a-z`, `0-9`, `_`, and never `__`. */
  predicate IsNormalized(s: string)
  {
    && (forall i :: 0 <= i < |s| ==> IsNameChar(s[i]) || s[i] == '_')
    && (forall i :: 0 <= i < |s| - 1 ==> !(s[i] == '_' && s[i + 1] == '_'))
  }

  /** The `[a-z0-9]` characters of `s`, in order. */
  function NameChars(s: string): string
  {
    if s == [] then [] else (if IsNameChar(s[0]) then [s[0]] else []) + NameChars(s[1..])
  }

  lemma {:induction false} NameCharsSkipRun(s: string)
    ensures NameChars(SkipRun(s)) == NameChars(s)
    decreases |s|
  {
    if s != [] && !IsNameChar(s[0]) {
      NameCharsSkipRun(s[1..]);
    }
  }

  /**
   * What CollapseRuns keeps and produces: the result is normalised, starts
   * with a `[a-z0-9]` character exactly when the input does, keeps every
   * `[a-z0-9]` character in order, and is never longer than the input.
   */
  lemma {:induction false} CollapseRunsFacts(s: string)
    ensures IsNormalized(CollapseRuns(s))
    ensures |CollapseRuns(s)| <= |s|
    ensures CollapseRuns(s) == [] <==> s == []
    ensures s != [] ==> (IsNameChar(CollapseRuns(s)[0]) <==> IsNameChar(s[0]))
    ensures NameChars(CollapseRuns(s)) == NameChars(s)
    decreases |s|
  {
    if s == [] {
    } else if IsNameChar(s[0]) {
      var t := CollapseRuns(s[1..]);
      CollapseRunsFacts(s[1..]);
      assert CollapseRuns(s) == [s[0]] + t;
      assert NameChars([s[0]] + t) == [s[0]] + NameChars(t) by {
        assert ([s[0]] + t)[1..] == t;
      }
    } else {
      var rest := SkipRun(s[1..]);
      var t := CollapseRuns(rest);
      CollapseRunsFacts(rest);
      NameCharsSkipRun(s[1..]);
      assert CollapseRuns(s) == "_" + t;
      assert t == [] || IsNameChar(t[0]);
      assert NameChars("_" + t) == NameChars(t) by {
        assert ("_" + t)[1..] == t;
      }
    }
  }

  /** The normalised collection name contains only `a-z`, `0-9` and `_`, never `__`. */
  lemma NormalizedCollectionShape(name: string)
    ensures IsNormalized(NormalizeCollection(name))
    ensures NameChars(NormalizeCollection(name)) == NameChars(Lower(name))
  {
    CollapseRunsFacts(Lower(name));
  }

  /** On a normalised string CollapseRuns changes nothing. */
  lemma {:induction false} CollapseRunsFixed(s: string)
    requires IsNormalized(s)
    ensures CollapseRuns(s) == s
    decreases |s|
  {
    if s != [] {
      assert IsNormalized(s[1..]) by {
        forall i | 0 <= i < |s[1..]| - 1
          ensures !(s[1..][i] == '_' && s[1..][i + 1] == '_')
        {
          assert s[1..][i] == s[i + 1] && s[1..][i + 1] == s[i + 2];
        }
      }
      CollapseRunsFixed(s[1..]);
      if !IsNameChar(s[0]) {
        assert s[0] == '_';
        assert s[1..] == [] || IsNameChar(s[1]);
        assert SkipRun(s[1..]) == s[1..];
      }
    }
  }

  /** A normalised name is already lower case. */
  lemma LowerNormalized(s: string)
    requires IsNormalized(s)
    ensures Lower(s) == s
  {
  }

  /** Normalising a collection name a second time leaves it unchanged. */
  lemma NormalizeCollectionIdempotent(name: string)
    ensures NormalizeCollection(NormalizeCollection(name)) == NormalizeCollection(name)
  {
    var n := NormalizeCollection(name);
    NormalizedCollectionShape(name);
    LowerNormalized(n);
    CollapseRunsFixed(n);
  }

  /** A run of `[a-z0-9]` characters is copied as it is. */
  lemma {:induction false} CollapseRunsKeeps(x: string, y: string)
    requires forall i :: 0 <= i < |x| ==> IsNameChar(x[i])
    ensures CollapseRuns(x + y) == x + CollapseRuns(y)
    decreases |x|
  {
    if x != [] {
      assert (x + y)[0] == x[0] && (x + y)[1..] == x[1..] + y;
      assert IsNameChar(x[0]);
      CollapseRunsKeeps(x[1..], y);
      assert x == [x[0]] + x[1..];
    } else {
      assert x + y == y;
    }
  }

  /** A run of characters outside `[a-z0-9]` is skipped whole. */
  lemma {:induction false} SkipRunAll(x: string, y: string)
    requires forall i :: 0 <= i < |x| ==> !IsNameChar(x[i])
    requires y == [] || IsNameChar(y[0])
    ensures SkipRun(x + y) == y
    decreases |x|
  {
    if x == [] {
      assert x + y == y;
    } else {
      assert (x + y)[0] == x[0] && (x + y)[1..] == x[1..] + y;
      SkipRunAll(x[1..], y);
    }
  }

  /** A maximal run of characters outside `[a-z0-9]` becomes one `_`. */
  lemma CollapseRunsSeparator(x: string, y: string)
    requires x != [] && forall i :: 0 <= i < |x| ==> !IsNameChar(x[i])
    requires y == [] || IsNameChar(y[0])
    ensures CollapseRuns(x + y) == "_" + CollapseRuns(y)
  {
    assert (x + y)[0] == x[0] && (x + y)[1..] == x[1..] + y;
    SkipRunAll(x[1..], y);
  }

  /** An example: "Calc Materials!" becomes "calc_materials_". */
  lemma NormalizeCollectionExample()
    ensures NormalizeCollection("Calc Materials!") == "calc_materials_"
  {
    LowerExample();
    CollapseExample();
  }

  lemma LowerExample()
    ensures Lower("Calc Materials!") == "calc materials!"
  {
  }

  lemma CollapseExample()
    ensures CollapseRuns("calc materials!") == "calc_materials_"
  {
    var head, materials := "calc", "materials";
    assert forall i :: 0 <= i < |head| ==> IsNameChar(head[i]);
    assert forall i :: 0 <= i < |materials| ==> IsNameChar(materials[i]);
    assert "calc materials!" == head + (" " + (materials + "!"));
    CollapseRunsKeeps(head, " " + (materials + "!"));
    CollapseRunsSeparator(" ", materials + "!");
    CollapseRunsKeeps(materials, "!");
    assert "!" == "!" + [];
    CollapseRunsSeparator("!", []);
    assert head + ("_" + (materials + ("_" + []))) == "calc_materials_";
  }

  // ---------------------------------------------------------------------
  // Host: config['host'].rstrip('/')
  // ---------------------------------------------------------------------

  /**
   * `host.rstrip('/')` (storage.py:216): the result is a prefix of the host,
   * does not end with `/`, and everything removed is `/`.
   */
  function StripTrailingSlashes(host: string): (r: string)
    ensures r <= host
    ensures r == [] || r[|r| - 1] != '/'
    ensures forall i :: |r| <= i < |host| ==> host[i] == '/'
  {
    if host != [] && host[|host| - 1] == '/' then StripTrailingSlashes(host[..|host| - 1]) else host
  }

  // ---------------------------------------------------------------------
  // Token templates: re.sub(r'\{\{\s*(\w+)\s*\}\}', reTokenCallback, token)
  // ---------------------------------------------------------------------

  /** One placeholder occurrence `{{` lead name trail `}}`. */
  datatype Placeholder = Placeholder(lead: string, name: string, trail: string)

  /** The text a placeholder occupies. */
  function Render(p: Placeholder): string
  {
    "{{" + p.lead + p.name + p.trail + "}}"
  }

  /** The shape the pattern accepts: `\s*`, then `\w+`, then `\s*`. */
  predicate WellFormed(p: Placeholder)
  {
    AllSpace(p.lead) && |p.name| > 0 && AllWord(p.name) && AllSpace(p.trail)
  }

  predicate AllSpace(s: string)
  {
    forall i :: 0 <= i < |s| ==> IsSpace(s[i])
  }

  predicate AllWord(s: string)
  {
    forall i :: 0 <= i < |s| ==> IsWord(s[i])
  }

  /** The end of the run of whitespace starting at `i` (greedy `\s*`). */
  function SpaceEnd(s: string, i: nat): (j: nat)
    requires i <= |s|
    ensures i <= j <= |s|
    ensures forall k :: i <= k < j ==> IsSpace(s[k])
    ensures j < |s| ==> !IsSpace(s[j])
    decreases |s| - i
  {
    if i < |s| && IsSpace(s[i]) then SpaceEnd(s, i + 1) else i
  }

  /** The end of the run of word characters starting at `i` (greedy `\w*`). */
  function WordEnd(s: string, i: nat): (j: nat)
    requires i <= |s|
    ensures i <= j <= |s|
    ensures forall k :: i <= k < j ==> IsWord(s[k])
    ensures j < |s| ==> !IsWord(s[j])
    decreases |s| - i
  {
    if i < |s| && IsWord(s[i]) then WordEnd(s, i + 1) else i
  }

  /** The text between the braces is the three parts of the placeholder. */
  lemma Slices(s: string, a: nat, b: nat, c: nat)
    requires 2 <= a <= b <= c && c + 2 <= |s|
    requires s[0] == '{' && s[1] == '{' && s[c] == '}' && s[c + 1] == '}'
    ensures Render(Placeholder(s[2..a], s[a..b], s[b..c])) == s[..c + 2]
  {
    assert s[..c + 2] == s[..2] + s[2..a] + s[a..b] + s[b..c] + s[c..c + 2];
  }

  /**
   * The match of the placeholder pattern at the start of `s`, if any. The
   * classes `\s`, `\w` and `}` are disjoint, so the greedy reading is the
   * only one and no backtracking can find another.
   */
  function MatchPlaceholder(s: string): Option<Placeholder>
  {
    if |s| >= 2 && s[0] == '{' && s[1] == '{' then
      var a := SpaceEnd(s, 2);
      var b := WordEnd(s, a);
      var c := SpaceEnd(s, b);
      if a < b && c + 2 <= |s| && s[c] == '}' && s[c + 1] == '}' then
        Some(Placeholder(s[2..a], s[a..b], s[b..c]))
      else None
    else None
  }

  /** Whatever the matcher finds is a well-formed placeholder the text starts with. */
  lemma MatchSound(s: string)
    ensures var m := MatchPlaceholder(s);
      m.Some? ==> WellFormed(m.value) && Render(m.value) <= s
  {
    if MatchPlaceholder(s).Some? {
      var a := SpaceEnd(s, 2);
      var b := WordEnd(s, a);
      var c := SpaceEnd(s, b);
      Slices(s, a, b, c);
    }
  }

  /** SpaceEnd is determined by where the whitespace stops. */
  lemma SpaceEndAt(s: string, i: nat, j: nat)
    requires i <= j <= |s|
    requires AllSpace(s[i..j])
    requires j < |s| ==> !IsSpace(s[j])
    ensures SpaceEnd(s, i) == j
  {
    assert forall k :: i <= k < j ==> s[k] == s[i..j][k - i];
  }

  /** WordEnd is determined by where the word characters stop. */
  lemma WordEndAt(s: string, i: nat, j: nat)
    requires i <= j <= |s|
    requires AllWord(s[i..j])
    requires j < |s| ==> !IsWord(s[j])
    ensures WordEnd(s, i) == j
  {
    assert forall k :: i <= k < j ==> s[k] == s[i..j][k - i];
  }

  /** Where the parts of a placeholder sit in the text that starts with it. */
  lemma RenderLayout(p: Placeholder, rest: string, s: string, a: nat, b: nat, c: nat)
    requires s == Render(p) + rest
    requires a == 2 + |p.lead| && b == a + |p.name| && c == b + |p.trail|
    ensures c + 2 <= |s| && s[0] == '{' && s[1] == '{' && s[c] == '}' && s[c + 1] == '}'
    ensures s[2..a] == p.lead && s[a..b] == p.name && s[b..c] == p.trail
  {
    assert s == "{{" + p.lead + p.name + p.trail + ("}}" + rest);
  }

  /**
   * The matcher finds every well-formed placeholder: together with
   * MatchSound, a placeholder is matched at the start of a text exactly when
   * the text starts with one.
   */
  lemma MatchComplete(p: Placeholder, rest: string)
    requires WellFormed(p)
    ensures MatchPlaceholder(Render(p) + rest) == Some(p)
  {
    var s := Render(p) + rest;
    var a := 2 + |p.lead|;
    var b := a + |p.name|;
    var c := b + |p.trail|;
    RenderLayout(p, rest, s, a, b, c);
    RenderRunEnds(p, s, a, b, c);
    MatchPlaceholderAt(s, a, b, c);
  }

  /** The greedy runs of a rendered placeholder end where its parts end. */
  lemma RenderRunEnds(p: Placeholder, s: string, a: nat, b: nat, c: nat)
    requires WellFormed(p)
    requires 2 <= a < b <= c && c + 2 <= |s| && s[c] == '}'
    requires s[2..a] == p.lead && s[a..b] == p.name && s[b..c] == p.trail
    ensures SpaceEnd(s, 2) == a && WordEnd(s, a) == b && SpaceEnd(s, b) == c
  {
    assert s[a] == s[a..b][0];
    SpaceEndAt(s, 2, a);
    WordEndAt(s, a, b);
    SpaceEndAt(s, b, c);
  }

  /** Unfolds the matcher once the three run ends are known. */
  lemma MatchPlaceholderAt(s: string, a: nat, b: nat, c: nat)
    requires |s| >= 2 && s[0] == '{' && s[1] == '{'
    requires SpaceEnd(s, 2) == a && a <= |s| && WordEnd(s, a) == b && b <= |s| && SpaceEnd(s, b) == c
    requires a < b && c + 2 <= |s| && s[c] == '}' && s[c + 1] == '}'
    ensures MatchPlaceholder(s) == Some(Placeholder(s[2..a], s[a..b], s[b..c]))
  {
  }

  /** `reTokenCallback`: the variable's value, or empty text when it is unset. */
  function Lookup(env: map<string, string>, name: string): (v: string)
    ensures name in env ==> v == env[name]
    ensures name !in env ==> v == ""
  {
    if name in env then env[name] else ""
  }

  /**
   * `parseToken(token)` (storage.py:16-20): scans left to right, replacing
   * each placeholder by its variable's value and copying other characters.
   */
  function ParseToken(env: map<string, string>, token: string): string
    decreases |token|
  {
    if token == [] then []
    else
      MatchSound(token);
      match MatchPlaceholder(token)
      case Some(p) => Lookup(env, p.name) + ParseToken(env, token[|Render(p)|..])
      case None => [token[0]] + ParseToken(env, token[1..])
  }

  /** A placeholder at the front is replaced by its variable's value; the rest is parsed on. */
  lemma ParseTokenPlaceholder(env: map<string, string>, p: Placeholder, rest: string)
    requires WellFormed(p)
    ensures ParseToken(env, Render(p) + rest) == Lookup(env, p.name) + ParseToken(env, rest)
  {
    MatchComplete(p, rest);
    assert (Render(p) + rest)[|Render(p)|..] == rest;
  }

  /** The pattern matches nowhere in the text. */
  predicate NoPlaceholder(s: string)
  {
    forall i :: 0 <= i < |s| ==> MatchPlaceholder(s[i..]).None?
  }

  /** `re.sub` with no match: text in which no placeholder starts is returned unchanged. */
  lemma {:induction false} ParseTokenPlain(env: map<string, string>, s: string)
    requires NoPlaceholder(s)
    ensures ParseToken(env, s) == s
    decreases |s|
  {
    if s != [] {
      assert s[0..] == s;
      assert NoPlaceholder(s[1..]) by {
        forall i | 0 <= i < |s[1..]|
          ensures MatchPlaceholder(s[1..][i..]).None?
        {
          assert s[1..][i..] == s[i + 1..];
        }
      }
      ParseTokenPlain(env, s[1..]);
    }
  }

  /** No `{{` anywhere in the text. */
  predicate NoOpenBraces(s: string)
  {
    forall i :: 0 <= i < |s| - 1 ==> !(s[i] == '{' && s[i + 1] == '{')
  }

  /** Without a `{{` no placeholder can start, so such a token is returned unchanged. */
  lemma NoOpenBracesPlain(env: map<string, string>, s: string)
    requires NoOpenBraces(s)
    ensures NoPlaceholder(s) && ParseToken(env, s) == s
  {
    forall i | 0 <= i < |s|
      ensures MatchPlaceholder(s[i..]).None?
    {
      if i + 1 < |s| {
        assert s[i..][0] == s[i] && s[i..][1] == s[i + 1];
      }
    }
    ParseTokenPlain(env, s);
  }

  /** A character at which no placeholder starts is copied. */
  lemma ParseTokenCopies(env: map<string, string>, c: char, rest: string)
    requires MatchPlaceholder([c] + rest).None?
    ensures ParseToken(env, [c] + rest) == [c] + ParseToken(env, rest)
  {
    assert ([c] + rest)[1..] == rest;
  }

  /** No placeholder starts at a `{` followed by a placeholder: its third character is `{`, not `\w` or `\s`. */
  lemma BraceBeforePlaceholder(p: Placeholder, rest: string)
    requires WellFormed(p)
    ensures MatchPlaceholder(['{'] + (Render(p) + rest)).None?
  {
    var s := ['{'] + (Render(p) + rest);
    assert s[2] == Render(p)[1] == '{';
    assert SpaceEnd(s, 2) == 2;
    assert WordEnd(s, 2) == 2;
  }

  /** A `{` in front of a placeholder is copied, and the placeholder is then expanded. */
  lemma ParseTokenBraceThenPlaceholder(env: map<string, string>, p: Placeholder, rest: string)
    requires WellFormed(p)
    ensures ParseToken(env, ['{'] + (Render(p) + rest)) == ['{'] + (Lookup(env, p.name) + ParseToken(env, rest))
  {
    BraceBeforePlaceholder(p, rest);
    ParseTokenCopies(env, '{', Render(p) + rest);
    ParseTokenPlaceholder(env, p, rest);
  }

  /** Braces that open no placeholder are copied: "{{{FOO}}}" gives "{" + FOO's value + "}". */
  lemma ParseTokenExtraBraces(env: map<string, string>, p: Placeholder)
    requires WellFormed(p)
    ensures ParseToken(env, ['{'] + Render(p) + ['}']) == ['{'] + Lookup(env, p.name) + ['}']
  {
    var close: string := ['}'];
    assert ['{'] + Render(p) + close == ['{'] + (Render(p) + close);
    ParseTokenBraceThenPlaceholder(env, p, close);
    assert close == ['}'] + [];
    ParseTokenCopies(env, '}', []);
    assert ParseToken(env, []) == [];
    assert ['{'] + (Lookup(env, p.name) + close) == ['{'] + Lookup(env, p.name) + close;
  }

  /** Any character before a placeholder is copied, `{` included, and the placeholder is expanded. */
  lemma ParseTokenCharThenPlaceholder(env: map<string, string>, sep: char, q: Placeholder)
    requires WellFormed(q)
    ensures ParseToken(env, [sep] + Render(q)) == [sep] + Lookup(env, q.name)
  {
    assert Render(q) + [] == Render(q);
    ParseTokenPlaceholder(env, q, []);
    assert ParseToken(env, []) == [];
    if sep == '{' {
      ParseTokenBraceThenPlaceholder(env, q, []);
    } else {
      ParseTokenCopies(env, sep, Render(q));
    }
  }

  /** Two placeholders around any separator expand to their values around it. */
  lemma ParseTokenPair(env: map<string, string>, p: Placeholder, sep: char, q: Placeholder)
    requires WellFormed(p) && WellFormed(q)
    ensures ParseToken(env, Render(p) + [sep] + Render(q)) == Lookup(env, p.name) + [sep] + Lookup(env, q.name)
  {
    var tail := [sep] + Render(q);
    assert Render(p) + [sep] + Render(q) == Render(p) + tail;
    ParseTokenPlaceholder(env, p, tail);
    ParseTokenCharThenPlaceholder(env, sep, q);
  }

  /** An example: "{{FOO}}-{{BAR}}" with FOO=abc and BAR unset gives "abc-". */
  lemma ParseTokenExampleUnset(env: map<string, string>)
    requires "FOO" in env && env["FOO"] == "abc" && "BAR" !in env
    ensures ParseToken(env, "{{FOO}}-{{BAR}}") == "abc-"
  {
    var foo, bar := Placeholder("", "FOO", ""), Placeholder("", "BAR", "");
    assert "{{FOO}}-{{BAR}}" == Render(foo) + ['-'] + Render(bar);
    assert "abc" + ['-'] + "" == "abc-";
    assert WellFormed(foo) && WellFormed(bar);
    ParseTokenPair(env, foo, '-', bar);
  }

  /** An example: "{{FOO}}-{{BAR}}" with FOO=abc and BAR=xyz gives "abc-xyz". */
  lemma ParseTokenExampleSet(env: map<string, string>)
    requires "FOO" in env && env["FOO"] == "abc" && "BAR" in env && env["BAR"] == "xyz"
    ensures ParseToken(env, "{{FOO}}-{{BAR}}") == "abc-xyz"
  {
    var foo, bar := Placeholder("", "FOO", ""), Placeholder("", "BAR", "");
    assert "{{FOO}}-{{BAR}}" == Render(foo) + ['-'] + Render(bar);
    assert "abc" + ['-'] + "xyz" == "abc-xyz";
    assert WellFormed(foo) && WellFormed(bar);
    ParseTokenPair(env, foo, '-', bar);
  }

  // ---------------------------------------------------------------------
  // The driver configuration
  // ---------------------------------------------------------------------

  /** The three values the driver keeps from its configuration. */
  datatype Settings = Settings(collection: string, host: string, token: string)

  /**
   * `DirectusStorageDriver.__init__` (storage.py:212-220): a missing key
   * makes the `try` block fail, which logs and exits the process; here it is
   * `None`. Otherwise each value is normalised as above.
   */
  function Configure(config: map<string, string>, env: map<string, string>): (r: Option<Settings>)
    ensures r.Some? <==> "collection" in config && "host" in config && "token" in config
    ensures r.Some? ==> r.value == Settings(NormalizeCollection(config["collection"]),
                                            StripTrailingSlashes(config["host"]),
                                            ParseToken(env, config["token"]))
    ensures r.Some? ==> && IsNormalized(r.value.collection)
                        && r.value.host <= config["host"]
                        && (r.value.host == [] || r.value.host[|r.value.host| - 1] != '/')
  {
    if "collection" in config && "host" in config && "token" in config then
      NormalizedCollectionShape(config["collection"]);
      Some(Settings(NormalizeCollection(config["collection"]),
                    StripTrailingSlashes(config["host"]),
                    ParseToken(env, config["token"])))
    else None
  }
}

/** The localization provider: the current interface language (English or
    Russian), adopted from and saved to the stored-language setting, and the
    translation lookup `t`, which walks a dot-separated key through the current
    language's table of texts, falls back to the key itself, and fills `{n}`
    placeholders from its arguments. */
module Localization {
  import opened Common

  /** A translation table: a text, or a table of named entries. */
  datatype Entry = Text(s: string) | Table(m: map<string, Entry>)

  // ---------------------------------------------------------------------------
  // Keys
  // ---------------------------------------------------------------------------

  predicate NoDot(s: string) {
    forall k :: 0 <= k < |s| ==> s[k] != '.'
  }

  /** The segments of a key between its dots, as a string split on '.' gives
      them: never empty, and with empty segments where dots are adjacent. */
  function Split(s: string): (r: seq<string>)
    ensures |r| >= 1
    ensures forall k :: 0 <= k < |r| ==> NoDot(r[k])
    decreases |s|
  {
    if s == [] then [""]
    else
      var rest := Split(s[1..]);
      if s[0] == '.' then [""] + rest
      else [[s[0]] + rest[0]] + rest[1..]
  }

  /** The segments put back together with dots between them. */
  function Join(parts: seq<string>): string
    requires |parts| >= 1
    decreases |parts|
  {
    if |parts| == 1 then parts[0] else parts[0] + "." + Join(parts[1..])
  }

  /** Splitting loses nothing. */
  lemma {:induction false} JoinSplit(s: string)
    ensures Join(Split(s)) == s
    decreases |s|
  {
    if s != [] {
      JoinSplit(s[1..]);
      var rest := Split(s[1..]);
      if s[0] == '.' {
        assert s == "." + s[1..];
      } else if |rest| == 1 {
        assert s == [s[0]] + s[1..];
      } else {
        assert rest == [rest[0]] + rest[1..];
        assert Join(rest) == rest[0] + "." + Join(rest[1..]);
        assert s == [s[0]] + s[1..];
      }
    }
  }

  /** A segment without dots, put in front of a text, joins its first segment. */
  lemma {:induction false} SplitPrefix(a: string, t: string)
    requires NoDot(a)
    ensures Split(a + t) == [a + Split(t)[0]] + Split(t)[1..]
    decreases |a|
  {
    var st := Split(t);
    if a != [] {
      SplitPrefix(a[1..], t);
      var rest := Split(a[1..] + t);
      assert rest[0] == a[1..] + st[0] && rest[1..] == st[1..];
      assert (a + t)[1..] == a[1..] + t;
      assert (a + t)[0] == a[0] && a[0] != '.';
      assert Split(a + t) == [[a[0]] + rest[0]] + rest[1..];
      assert [a[0]] + (a[1..] + st[0]) == a + st[0];
    } else {
      assert a + t == t && a + st[0] == st[0];
      assert st == [st[0]] + st[1..];
    }
  }

  /** Dot-free segments joined with dots split back into themselves. */
  lemma {:induction false} SplitJoin(parts: seq<string>)
    requires |parts| >= 1
    requires forall k :: 0 <= k < |parts| ==> NoDot(parts[k])
    ensures Split(Join(parts)) == parts
    decreases |parts|
  {
    if |parts| == 1 {
      SplitPrefix(parts[0], "");
      assert parts[0] + "" == parts[0];
    } else {
      SplitJoin(parts[1..]);
      var t := "." + Join(parts[1..]);
      SplitPrefix(parts[0], t);
      assert t[1..] == Join(parts[1..]);
      assert t[0] == '.';
      assert Split(t) == [""] + parts[1..];
      assert Split(t)[0] == "" && Split(t)[1..] == parts[1..];
      assert parts[0] + "" == parts[0];
      assert parts[0] + "." + Join(parts[1..]) == parts[0] + t;
      assert parts == [parts[0]] + parts[1..];
    }
  }

  // ---------------------------------------------------------------------------
  // Path lookup
  // ---------------------------------------------------------------------------

  /** One step down a path. A text has no named entries: a segment below a text
      is missing. */
  function Child(e: Entry, k: string): Option<Entry> {
    match e
    case Table(m) => if k in m then Some(m[k]) else None
    case Text(_) => None
  }

  /** The entry a path leads to, or None as soon as a segment is missing. */
  function Resolve(root: Entry, path: seq<string>): Option<Entry>
    decreases |path|
  {
    if path == [] then Some(root)
    else match Resolve(root, path[..|path| - 1])
      case None => None
      case Some(e) => Child(e, path[|path| - 1])
  }

  /** Once a segment is missing, no longer path is found. */
  lemma {:induction false} ResolveNoneExtends(root: Entry, p: seq<string>, q: seq<string>)
    requires Resolve(root, p) == None
    ensures Resolve(root, p + q) == None
    decreases |q|
  {
    if q != [] {
      ResolveNoneExtends(root, p, q[..|q| - 1]);
      assert (p + q)[..|p + q| - 1] == p + q[..|q| - 1];
    } else {
      assert p + q == p;
    }
  }

  /** Looking a path up is looking its first segment up, then the rest below it. */
  lemma {:induction false} ResolveFront(root: Entry, k: string, p: seq<string>)
    ensures Resolve(root, [k] + p) ==
      (match Child(root, k) case None => None case Some(e) => Resolve(e, p))
    decreases |p|
  {
    if p == [] {
      assert ([k] + p)[..0] == [];
    } else {
      ResolveFront(root, k, p[..|p| - 1]);
      assert ([k] + p)[..|[k] + p| - 1] == [k] + p[..|p| - 1];
      if Child(root, k).None? {
        ResolveNoneExtends(root, [k], p);
      }
    }
  }

  // ---------------------------------------------------------------------------
  // Placeholders
  // ---------------------------------------------------------------------------

  /** Number of decimal digits at the start of s. */
  function DigitRun(s: string): (n: nat)
    ensures n <= |s| && AllDigits(s[..n])
    ensures n < |s| ==> !IsDigit(s[n])
    decreases |s|
  {
    if s != [] && IsDigit(s[0]) then 1 + DigitRun(s[1..]) else 0
  }

  /** The number of digits of a placeholder `{digits}` at the start of s, or 0
      when s does not start with one. */
  function PlaceholderDigits(s: string): (d: nat)
    ensures d > 0 ==> |s| >= d + 2 && s[0] == '{' && AllDigits(s[1..d + 1]) && s[d + 1] == '}'
    ensures d > 0 ==> DigitRun(s[1..]) == d
  {
    if |s| >= 3 && s[0] == '{' then
      var d := DigitRun(s[1..]);
      assert s[1..][..d] == s[1..d + 1];
      if d > 0 && d + 1 < |s| && s[d + 1] == '}' then d else 0
    else 0
  }

  /** The replacement for a placeholder: the argument at that index when the
      digits name an existing argument in canonical form (no leading zero),
      otherwise the placeholder itself. */
  function ArgFor(digits: string, args: seq<string>, placeholder: string): (r: string)
    requires AllDigits(digits)
  {
    var n := DigitsValue(digits);
    if n < |args| && NatText(n) == digits then args[n] else placeholder
  }

  /** The first piece of the scan of a non-empty text and the number of
      characters it consumes: a placeholder and its replacement, or one
      character copied. */
  function Piece(s: string, args: seq<string>): (r: (string, nat))
    requires s != []
    ensures 1 <= r.1 <= |s|
  {
    var d := PlaceholderDigits(s);
    if d > 0 then (ArgFor(s[1..d + 1], args, s[..d + 2]), d + 2) else ([s[0]], 1)
  }

  /** One left-to-right pass replacing each placeholder; replaced text is not
      scanned again. */
  function Substitute(s: string, args: seq<string>): string
    decreases |s|
  {
    if s == [] then [] else Piece(s, args).0 + Substitute(s[Piece(s, args).1..], args)
  }

  /** Without arguments every placeholder stays as it is. */
  lemma {:induction false} SubstituteNoArgs(s: string)
    ensures Substitute(s, []) == s
    decreases |s|
  {
    if s != [] {
      var d := PlaceholderDigits(s);
      if d > 0 {
        SubstituteNoArgs(s[d + 2..]);
        assert s == s[..d + 2] + s[d + 2..];
      } else {
        SubstituteNoArgs(s[1..]);
        assert s == [s[0]] + s[1..];
      }
    }
  }

  /** Text without an opening brace is left unchanged, whatever the arguments. */
  lemma {:induction false} SubstitutePlain(s: string, args: seq<string>)
    requires forall k :: 0 <= k < |s| ==> s[k] != '{'
    ensures Substitute(s, args) == s
    decreases |s|
  {
    if s != [] {
      SubstitutePlain(s[1..], args);
      assert s == [s[0]] + s[1..];
    }
  }

  lemma {:induction false} DigitRunOf(t: string, rest: string)
    requires AllDigits(t)
    requires rest == [] || !IsDigit(rest[0])
    ensures DigitRun(t + rest) == |t|
    decreases |t|
  {
    if t != [] {
      DigitRunOf(t[1..], rest);
      assert (t + rest)[1..] == t[1..] + rest;
    } else {
      assert t + rest == rest;
    }
  }

  /** A text that is exactly one placeholder becomes its replacement. */
  lemma SubstitutePlaceholder(t: string, args: seq<string>)
    requires |t| >= 1 && AllDigits(t)
    ensures Substitute("{" + t + "}", args) == ArgFor(t, args, "{" + t + "}")
  {
    var p := "{" + t + "}";
    DigitRunOf(t, "}");
    assert p[1..] == t + "}";
    assert PlaceholderDigits(p) == |t|;
    assert p[1..|t| + 1] == t;
    assert p[..|t| + 2] == p;
    assert p[|t| + 2..] == [];
    assert Substitute(p, args) == Piece(p, args).0 + Substitute([], args);
  }

  /** A placeholder of index n becomes the n-th argument when there is one and
      stays as it is otherwise. */
  lemma SubstituteOne(n: nat, args: seq<string>)
    ensures var p := "{" + NatText(n) + "}";
      Substitute(p, args) == if n < |args| then args[n] else p
  {
    NatTextShape(n);
    NatTextValue(n);
    SubstitutePlaceholder(NatText(n), args);
  }

  /** Digits with a leading zero do not name an argument. */
  lemma SubstituteLeadingZero()
    ensures Substitute("{01}", ["a", "b"]) == "{01}"
  {
    assert AllDigits("01");
    SubstitutePlaceholder("01", ["a", "b"]);
    assert "{" + "01" + "}" == "{01}";
    assert DigitsValue("01") == 1 by {
      assert "01"[..1] == "0";
      assert "0"[..0] == "";
    }
    assert NatText(1) == "1";
  }

  /** Text in which no position starts a `{digits}` placeholder is left
      unchanged, whatever the arguments: "{a}", "{}" and "{1" included. */
  lemma {:induction false} SubstituteNoPattern(s: string, args: seq<string>)
    requires forall k :: 0 <= k <= |s| ==> PlaceholderDigits(s[k..]) == 0
    ensures Substitute(s, args) == s
    decreases |s|
  {
    if s != [] {
      assert s[0..] == s;
      forall k | 0 <= k <= |s[1..]| ensures PlaceholderDigits(s[1..][k..]) == 0 {
        assert s[1..][k..] == s[k + 1..];
      }
      SubstituteNoPattern(s[1..], args);
      assert s == [s[0]] + s[1..];
    }
  }

  /** A first character other than an opening brace is copied. */
  lemma SubstituteCopies(s: string, args: seq<string>)
    requires s != [] && s[0] != '{'
    ensures Substitute(s, args) == [s[0]] + Substitute(s[1..], args)
  {
    assert PlaceholderDigits(s) == 0;
  }

  /** A leading placeholder is replaced and the scan goes on after it. */
  lemma SubstituteLeading(t: string, w: string, args: seq<string>)
    requires |t| >= 1 && AllDigits(t)
    ensures Substitute("{" + t + "}" + w, args) == ArgFor(t, args, "{" + t + "}") + Substitute(w, args)
  {
    var p := "{" + t + "}";
    var s := p + w;
    DigitRunOf(t, "}" + w);
    assert s[1..] == t + ("}" + w);
    assert PlaceholderDigits(s) == |t|;
    assert s[1..|t| + 1] == t;
    assert s[..|t| + 2] == p;
    assert s[|t| + 2..] == w;
  }

  /** Text without an opening brace before the rest is copied, and the rest
      is scanned on its own. */
  lemma {:induction false} SubstitutePrefix(u: string, v: string, args: seq<string>)
    requires forall k :: 0 <= k < |u| ==> u[k] != '{'
    ensures Substitute(u + v, args) == u + Substitute(v, args)
    decreases |u|
  {
    var s := u + v;
    if u == [] {
      assert s == v;
    } else {
      var tail := u[1..];
      assert s[0] == u[0];
      assert s[1..] == tail + v;
      SubstituteCopies(s, args);
      SubstitutePrefix(tail, v, args);
      assert u == [u[0]] + tail;
    }
  }

  /** A placeholder after text without an opening brace is replaced where it
      stands, and the scan goes on after it. */
  lemma SubstituteEmbedded(u: string, t: string, w: string, args: seq<string>)
    requires forall k :: 0 <= k < |u| ==> u[k] != '{'
    requires |t| >= 1 && AllDigits(t)
    ensures Substitute(u + ("{" + t + "}") + w, args) == u + ArgFor(t, args, "{" + t + "}") + Substitute(w, args)
  {
    var p := "{" + t + "}";
    assert u + p + w == u + (p + w);
    SubstitutePrefix(u, p + w, args);
    SubstituteLeading(t, w, args);
  }

  /** "{n}" inside a text becomes the n-th argument when there is one and stays
      otherwise; the text before it is kept and the text after it is scanned
      on its own, so a text with several placeholders is covered by applying
      this lemma once per placeholder. */
  lemma SubstituteIndexIn(u: string, n: nat, w: string, args: seq<string>)
    requires forall k :: 0 <= k < |u| ==> u[k] != '{'
    ensures var p := "{" + NatText(n) + "}";
      Substitute(u + p + w, args) == u + (if n < |args| then args[n] else p) + Substitute(w, args)
  {
    NatTextShape(n);
    NatTextValue(n);
    SubstituteEmbedded(u, NatText(n), w, args);
  }

  /** The scan of the replace call, one character or one placeholder at a
      time; `rest` is the text not yet scanned. */
  method ReplacePlaceholders(s: string, args: seq<string>) returns (out: string)
    ensures out == Substitute(s, args)
  {
    out := "";
    var rest := s;
    while rest != []
      invariant out + Substitute(rest, args) == Substitute(s, args)
      decreases |rest|
    {
      var p := Piece(rest, args);
      assert Substitute(rest, args) == p.0 + Substitute(rest[p.1..], args);
      assert out + (p.0 + Substitute(rest[p.1..], args)) == (out + p.0) + Substitute(rest[p.1..], args);
      out, rest := out + p.0, rest[p.1..];
    }
    assert out + [] == out;
  }

  // ---------------------------------------------------------------------------
  // The translation function
  // ---------------------------------------------------------------------------

  /** What `t(key, ...args)` gives for a table: the key when a segment is
      missing; a text with its placeholders filled when arguments are given;
      otherwise the text, or the key when the text is empty; a table reached by
      the whole path is handed back as it is. */
  function Translate(root: Entry, key: string, args: seq<string>): Entry {
    match Resolve(root, Split(key))
    case None => Text(key)
    case Some(Text(s)) =>
      if |args| > 0 then Text(Substitute(s, args))
      else if s == "" then Text(key)
      else Text(s)
    case Some(Table(m)) => Table(m)
  }

  /** As soon as one segment of the key is missing, the key itself comes back. */
  lemma TranslateMissing(root: Entry, key: string, args: seq<string>, i: nat)
    requires i < |Split(key)|
    requires Resolve(root, Split(key)[..i + 1]) == None
    ensures Translate(root, key, args) == Text(key)
  {
    var keys := Split(key);
    ResolveNoneExtends(root, keys[..i + 1], keys[i + 1..]);
    assert keys[..i + 1] + keys[i + 1..] == keys;
  }

  /** A key whose path ends below a text is missing too. */
  lemma TranslateBelowText(root: Entry, key: string, args: seq<string>, i: nat, s: string)
    requires i + 1 < |Split(key)|
    requires Resolve(root, Split(key)[..i + 1]) == Some(Text(s))
    ensures Translate(root, key, args) == Text(key)
  {
    var keys := Split(key);
    assert keys[..i + 2][..i + 1] == keys[..i + 1];
    TranslateMissing(root, key, args, i + 1);
  }

  /** A two-segment key `section.name` reaches the text filed under that name in
      that section; a non-empty text without arguments comes back unchanged. */
  lemma TranslateTwoLevel(m: map<string, Entry>, section: string, name: string, s: string)
    requires NoDot(section) && NoDot(name)
    requires section in m && m[section].Table? && name in m[section].m && m[section].m[name] == Text(s)
    ensures Translate(Table(m), section + "." + name, []) == (if s == "" then Text(section + "." + name) else Text(s))
  {
    SplitJoin([section, name]);
    assert Join([section, name]) == section + "." + name;
    ResolveFront(Table(m), section, [name]);
    ResolveFront(m[section], name, []);
    assert [name] == [name] + [];
  }

  /** With arguments, a text is returned with its placeholders filled, even an
      empty one; without arguments an empty text gives the key. */
  lemma TranslateWithArgs(root: Entry, key: string, args: seq<string>, s: string)
    requires Resolve(root, Split(key)) == Some(Text(s))
    ensures |args| > 0 ==> Translate(root, key, args) == Text(Substitute(s, args))
    ensures |args| > 0 && s == "" ==> Translate(root, key, args) == Text("")
    ensures |args| == 0 ==> Translate(root, key, args) == Text(if s == "" then key else s)
  {
  }

  // ---------------------------------------------------------------------------
  // The language state
  // ---------------------------------------------------------------------------

  datatype Language = En | Ru

  /** The code under which a language is stored. */
  function Code(l: Language): string {
    match l
    case En => "en"
    case Ru => "ru"
  }

  /** The stored value is adopted only when it is one of the two codes. */
  function ParseStored(v: Option<string>): (r: Option<Language>)
    ensures r.Some? <==> v == Some("en") || v == Some("ru")
    ensures r.Some? ==> v == Some(Code(r.value))
  {
    if v == Some("en") then Some(En)
    else if v == Some("ru") then Some(Ru)
    else None
  }

  /** A saved language is read back as itself. */
  lemma ParseStoredCode(l: Language)
    ensures ParseStored(Some(Code(l))) == Some(l)
  {
  }

  /** The provider's state: the current language and the stored setting, with
      the two translation tables (their contents are data, passed in). */
  class LocalizationProvider {
    var language: Language
    var stored: Option<string>
    const en: Entry
    const ru: Entry

    /** The provider starts in English; the stored setting is what the browser
        already holds. */
    constructor (storage: Option<string>, enTable: Entry, ruTable: Entry)
      ensures language == En && stored == storage
      ensures en == enTable && ru == ruTable
    {
      language := En;
      stored := storage;
      en := enTable;
      ru := ruTable;
    }

    /** The table of the current language, the only one lookups consult. */
    function Current(): Entry
      reads this
    {
      match language
      case En => en
      case Ru => ru
    }

    /** The initial load: a stored code is adopted, anything else is ignored. */
    method LoadStoredLanguage()
      modifies this
      ensures stored == old(stored)
      ensures ParseStored(stored).Some? ==> language == ParseStored(stored).value
      ensures ParseStored(stored).None? ==> language == old(language)
    {
      var parsed := ParseStored(stored);
      if parsed.Some? {
        language := parsed.value;
      }
    }

    /** Choosing a language sets it and stores its code, so the next load
        adopts it again. */
    method SetLanguage(l: Language)
      modifies this
      ensures language == l && stored == Some(Code(l))
      ensures ParseStored(stored) == Some(l)
    {
      language := l;
      stored := Some(Code(l));
    }

    /** The lookup `t(key, ...args)`: walk the key's segments through the
        current table, stopping at the first missing one, then fill
        placeholders or fall back to the key. */
    method T(key: string, args: seq<string>) returns (r: Entry)
      ensures r == Translate(Current(), key, args)
    {
      var keys := Split(key);
      var root := Current();
      var result := root;
      var i := 0;
      assert keys[..0] == [];
      while i < |keys|
        invariant 0 <= i <= |keys|
        invariant Resolve(root, keys[..i]) == Some(result)
        decreases |keys| - i
      {
        var next := Child(result, keys[i]);
        assert keys[..i + 1][..i] == keys[..i];
        if next.None? {
          TranslateMissing(root, key, args, i);
          return Text(key);
        }
        result := next.value;
        i := i + 1;
      }
      assert keys[..i] == keys;
      if result.Text? && |args| > 0 {
        var s := ReplacePlaceholders(result.s, args);
        return Text(s);
      }
      if result.Text? && result.s == "" {
        return Text(key);
      }
      return result;
    }
  }

  /** A lookup consults the current language's table only: two providers in
      the same language with the same table for it translate every key alike,
      whatever the other table holds. */
  lemma LookupSeesCurrentTableOnly(p: LocalizationProvider, q: LocalizationProvider, key: string, args: seq<string>)
    requires p.language == q.language
    requires p.language == En ==> p.en == q.en
    requires p.language == Ru ==> p.ru == q.ru
    ensures Translate(p.Current(), key, args) == Translate(q.Current(), key, args)
  {
    assert p.Current() == q.Current();
  }
}

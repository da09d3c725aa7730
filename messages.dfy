/** `get_text` of messages.py: a text looked up by key in the Russian or the
    English table, with a fallback to the other table, then formatted with
    `str.format(**kwargs)`. */
module Messages {

  import opened Basics

  /** The two tables `RU_TEXTS` and `EN_TEXTS`. */
  datatype Tables = Tables(ru: map<string, string>, en: map<string, string>)

  /** `table.get(key, '')`. */
  function Get(table: map<string, string>, key: string): string
  {
    if key in table then table[key] else ""
  }

  /** `RU_TEXTS if lang == 'ru' else EN_TEXTS`. */
  function Primary(t: Tables, lang: string): (table: map<string, string>)
    ensures lang == "ru" ==> table == t.ru
    ensures lang != "ru" ==> table == t.en
  {
    if lang == "ru" then t.ru else t.en
  }

  /** The template used: the primary table's entry unless it is missing or
      empty; then, for `ru`, the English entry and, for `en`, the Russian one;
      any other language gets no second lookup. */
  function TemplateFor(t: Tables, lang: string, key: string): (r: string)
    ensures Get(Primary(t, lang), key) != "" ==> r == Get(Primary(t, lang), key)
    ensures Get(t.ru, key) == "" && lang == "ru" ==> r == Get(t.en, key)
    ensures Get(t.en, key) == "" && lang == "en" ==> r == Get(t.ru, key)
    ensures lang != "ru" && lang != "en" ==> r == Get(t.en, key)
    ensures r == "" <==> Get(Primary(t, lang), key) == "" && (lang == "ru" || lang == "en" ==> Get(t.ru, key) == "" && Get(t.en, key) == "")
  {
    var first := Get(Primary(t, lang), key);
    if first == "" && lang == "ru" then Get(t.en, key)
    else if first == "" && lang == "en" then Get(t.ru, key)
    else first
  }

  // ---- str.format ----

  /** Outcome of `template.format(**kwargs)`: the text, a `KeyError` for a
      placeholder missing from `kwargs`, or any other error (`ValueError` for
      a stray brace, `IndexError` for a positional field). */
  datatype Formatted = Done(text: string) | MissingKey(name: string) | BadFormat

  function Prepend(prefix: string, f: Formatted): Formatted
  {
    if f.Done? then Done(prefix + f.text) else f
  }

  predicate AllDigits(s: string)
  {
    forall i :: 0 <= i < |s| ==> '0' <= s[i] <= '9'
  }

  /** The first `}` at or after position `i`. */
  function CloseAt(t: string, i: nat): (r: Option<nat>)
    decreases |t| - i
    ensures r.Some? ==> i <= r.value < |t| && t[r.value] == '}'
    ensures r.Some? ==> forall k :: i <= k < r.value ==> t[k] != '}'
    ensures r.None? ==> forall k :: i <= k < |t| ==> t[k] != '}'
  {
    if i >= |t| then None else if t[i] == '}' then Some(i) else CloseAt(t, i + 1)
  }

  /** `str.format` with keyword arguments only, left to right: `{{` and `}}`
      stand for one brace, `{name}` for `kwargs[name]`; the first problem met
      decides the error. */
  function Format(t: string, kwargs: map<string, string>): (r: Formatted)
    decreases |t|
    ensures r.MissingKey? ==> ValidName(r.name) && r.name !in kwargs
  {
    if t == [] then Done("")
    else if t[0] == '{' then
      if |t| >= 2 && t[1] == '{' then Prepend("{", Format(t[2..], kwargs))
      else match CloseAt(t, 1)
        case None => BadFormat
        case Some(j) =>
          var name := t[1..j];
          if '{' in name || name == "" || AllDigits(name) then BadFormat
          else if name !in kwargs then MissingKey(name)
          else Prepend(kwargs[name], Format(t[j + 1..], kwargs))
    else if t[0] == '}' then
      if |t| >= 2 && t[1] == '}' then Prepend("}", Format(t[2..], kwargs)) else BadFormat
    else Prepend([t[0]], Format(t[1..], kwargs))
  }

  function NotFoundText(key: string): string { "Error: Text for '" + key + "' not found." }
  function MissingDataText(key: string): string { "Error: Text for '" + key + "' has missing data." }
  const FormatErrorText: string := "Error: Could not format message."

  /** `get_text(lang, key, **kwargs)`; a total function: every path returns
      a string. */
  function GetText(t: Tables, lang: string, key: string, kwargs: map<string, string>): (r: string)
    ensures TemplateFor(t, lang, key) == "" ==> r == NotFoundText(key)
    ensures TemplateFor(t, lang, key) != "" && Format(TemplateFor(t, lang, key), kwargs).MissingKey? ==>
              r == MissingDataText(key)
    ensures TemplateFor(t, lang, key) != "" && Format(TemplateFor(t, lang, key), kwargs).BadFormat? ==>
              r == FormatErrorText
  {
    var template := TemplateFor(t, lang, key);
    if template == "" then NotFoundText(key)
    else match Format(template, kwargs)
      case Done(s) => s
      case MissingKey(_) => MissingDataText(key)
      case BadFormat => FormatErrorText
  }

  // ---- templates as pieces: the reference for Format ----

  /** A template read as literal characters and named placeholders. */
  datatype Piece = Char(c: char) | Field(name: string)

  predicate ValidName(n: string)
  {
    n != "" && !AllDigits(n) && '{' !in n && '}' !in n
  }

  predicate ValidPieces(ps: seq<Piece>)
  {
    forall i :: 0 <= i < |ps| ==> ps[i].Field? ==> ValidName(ps[i].name)
  }

  /** The template text of one piece: braces doubled, fields braced. */
  function WritePiece(p: Piece): string
  {
    match p
    case Char(c) => if c == '{' then "{{" else if c == '}' then "}}" else [c]
    case Field(n) => "{" + n + "}"
  }

  function Write(ps: seq<Piece>): string
  {
    if ps == [] then "" else WritePiece(ps[0]) + Write(ps[1..])
  }

  predicate Supplied(ps: seq<Piece>, kwargs: map<string, string>)
  {
    forall i :: 0 <= i < |ps| ==> ps[i].Field? ==> ps[i].name in kwargs
  }

  /** The text a template of pieces stands for once every field is filled. */
  function Render(ps: seq<Piece>, kwargs: map<string, string>): string
    requires Supplied(ps, kwargs)
  {
    if ps == [] then ""
    else (match ps[0] case Char(c) => [c] case Field(n) => kwargs[n]) + Render(ps[1..], kwargs)
  }

  /** Formatting a piece followed by more template text. */
  lemma FormatPiece(p: Piece, rest: string, kwargs: map<string, string>)
    requires p.Field? ==> ValidName(p.name)
    ensures p.Char? ==> Format(WritePiece(p) + rest, kwargs) == Prepend([p.c], Format(rest, kwargs))
    ensures p.Field? && p.name in kwargs ==>
              Format(WritePiece(p) + rest, kwargs) == Prepend(kwargs[p.name], Format(rest, kwargs))
    ensures p.Field? && p.name !in kwargs ==> Format(WritePiece(p) + rest, kwargs) == MissingKey(p.name)
  {
    var t := WritePiece(p) + rest;
    match p
    case Char(c) =>
      if c == '{' {
        assert t[2..] == rest;
      } else if c == '}' {
        assert t[2..] == rest;
      } else {
        assert t[1..] == rest;
      }
    case Field(n) =>
      var j := |n| + 1;
      assert t[j] == '}';
      assert forall k :: 1 <= k < j ==> t[k] == n[k - 1];
      assert CloseAt(t, 1) == Some(j);
      assert t[1..j] == n;
      assert t[j + 1..] == rest;
      assert t[1] != '{';
  }

  /** Round trip: the template written from pieces formats to their rendering. */
  lemma {:induction false} FormatWrite(ps: seq<Piece>, kwargs: map<string, string>)
    requires ValidPieces(ps) && Supplied(ps, kwargs)
    ensures Format(Write(ps), kwargs) == Done(Render(ps, kwargs))
  {
    if ps != [] {
      FormatWrite(ps[1..], kwargs);
      FormatPiece(ps[0], Write(ps[1..]), kwargs);
    }
  }

  /** A field whose name is not supplied makes formatting fail with its name. */
  lemma {:induction false} FormatWriteMissing(ps: seq<Piece>, kwargs: map<string, string>)
    requires ValidPieces(ps) && !Supplied(ps, kwargs)
    ensures Format(Write(ps), kwargs).MissingKey?
  {
    var p := ps[0];
    FormatPiece(p, Write(ps[1..]), kwargs);
    if !(p.Field? && p.name !in kwargs) {
      assert !Supplied(ps[1..], kwargs) by {
        var i :| 0 <= i < |ps| && ps[i].Field? && ps[i].name !in kwargs;
        assert i > 0 && ps[1..][i - 1] == ps[i];
      }
      FormatWriteMissing(ps[1..], kwargs);
    }
  }

  /** A template without braces comes back unchanged. */
  lemma {:induction false} FormatPlain(s: string, kwargs: map<string, string>)
    requires '{' !in s && '}' !in s
    ensures Format(s, kwargs) == Done(s)
  {
    if s != [] {
      assert '{' !in s[1..] && '}' !in s[1..];
      FormatPlain(s[1..], kwargs);
      assert [s[0]] + s[1..] == s;
    }
  }

  /** A found template whose placeholders are all supplied returns the
      substituted text. */
  lemma GetTextSubstitutes(t: Tables, lang: string, key: string, ps: seq<Piece>, kwargs: map<string, string>)
    requires TemplateFor(t, lang, key) == Write(ps) && ps != []
    requires ValidPieces(ps) && Supplied(ps, kwargs)
    ensures GetText(t, lang, key, kwargs) == Render(ps, kwargs)
  {
    assert |WritePiece(ps[0])| > 0;
    FormatWrite(ps, kwargs);
  }

  /** A found template with a placeholder absent from `kwargs` returns the
      missing-data message. */
  lemma GetTextMissingData(t: Tables, lang: string, key: string, ps: seq<Piece>, kwargs: map<string, string>)
    requires TemplateFor(t, lang, key) == Write(ps)
    requires ValidPieces(ps) && !Supplied(ps, kwargs)
    ensures GetText(t, lang, key, kwargs) == MissingDataText(key)
  {
    assert |WritePiece(ps[0])| > 0;
    FormatWriteMissing(ps, kwargs);
  }
}

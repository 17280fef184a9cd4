/** The logger of lib/logger/index.js: level names and their numbers, the
    `LOG_LEVEL` gate, the coloured and plain level tags, `{{key}}` template
    substitution, and the default line format.

    The environment is the record `LogEnv`: `LOG_LEVEL` as the number
    `Number()` yields (None for NaN), `LOG_TEMPLATE`, `APPLICATION` and
    `LOG_COLOR`, plus the timestamp and host name, which come from the clock
    and the operating system. Where a line goes (console, stdout or the
    parent process) is not modelled: `Logger` returns the line and its level. */
module Logger {
  import opened Common

  const Levels: seq<string> := ["error", "warning", "info", "debug", "system"]

  const Esc: char := 27 as char

  /** `'\x1b[0m'`. */
  const ColorReset: string := [Esc] + "[0m"

  // ---------------------------------------------------------------------
  // Level names and numbers
  // ---------------------------------------------------------------------

  /** `toLowerCase()` on the letters A to Z. */
  function ToLowerAscii(s: string): string
  {
    seq(|s|, i requires 0 <= i < |s| => if 'A' <= s[i] <= 'Z' then (s[i] as int + 32) as char else s[i])
  }

  /** `Array.prototype.indexOf`: the first position of x, or -1. */
  function IndexOf(xs: seq<string>, x: string): (r: int)
    ensures -1 <= r < |xs|
    ensures r == -1 <==> x !in xs
    ensures r >= 0 ==> xs[r] == x && forall j :: 0 <= j < r ==> xs[j] != x
  {
    if xs == [] then -1
    else if xs[0] == x then 0
    else
      var k := IndexOf(xs[1..], x);
      if k < 0 then -1 else k + 1
  }

  /** `Levels.indexOf(level.toLowerCase()) + 1`: 1 to 5, or 0 for an unknown name. */
  function LevelNumber(level: string): (n: nat)
    ensures n <= 5
    ensures n == 0 <==> ToLowerAscii(level) !in Levels
    ensures n > 0 ==> Levels[n - 1] == ToLowerAscii(level)
  {
    IndexOf(Levels, ToLowerAscii(level)) + 1
  }

  /** Text without capital letters is its own lower case. */
  lemma LowerCaseIdentity(s: string)
    requires forall i :: 0 <= i < |s| ==> !('A' <= s[i] <= 'Z')
    ensures ToLowerAscii(s) == s
  {
  }

  /** The five names map to 1..5: `Levels[i]` has number i + 1. */
  lemma LevelNames(i: nat)
    requires i < |Levels|
    ensures LevelNumber(Levels[i]) == i + 1
  {
    LowerCaseIdentity(Levels[i]);
  }

  /** `Number(process.env.LOG_LEVEL) || 3`: NaN (None) and 0 fall back to 3. */
  function EffectiveLogLevel(setting: Option<real>): (level: real)
    ensures level != 0.0
    ensures setting.Some? && setting.value != 0.0 ==> level == setting.value
    ensures setting.None? || setting.value == 0.0 ==> level == 3.0
  {
    match setting
    case None => 3.0
    case Some(x) => if x == 0.0 then 3.0 else x
  }

  // ---------------------------------------------------------------------
  // Level tags and colours
  // ---------------------------------------------------------------------

  /** `logColorShort(levelnumber)`; `color` is `LOG_COLOR == 'true'`. */
  function LogColorShort(levelnumber: int, color: bool): (r: string)
    ensures 1 <= levelnumber <= 5 && !color ==> r == "[" + ["EWIDS"[levelnumber - 1]] + "]"
    ensures 1 <= levelnumber <= 5 && color ==> |r| == 12 && r[0] == Esc && r[6] == "EWIDS"[levelnumber - 1]
    ensures (levelnumber < 1 || levelnumber > 5) ==> r == ColorReset
  {
    match levelnumber
    case 1 => if color then [Esc] + "[31m[E]" + [Esc] + "[0m" else "[E]"
    case 2 => if color then [Esc] + "[33m[W]" + [Esc] + "[0m" else "[W]"
    case 3 => if color then [Esc] + "[32m[I]" + [Esc] + "[0m" else "[I]"
    case 4 => if color then [Esc] + "[35m[D]" + [Esc] + "[0m" else "[D]"
    case 5 => if color then [Esc] + "[36m[S]" + [Esc] + "[0m" else "[S]"
    case _ => [Esc] + "[0m"
  }

  /** `logColor(levelnumber)`. */
  function LogColor(levelnumber: int, color: bool): (r: string)
    ensures !color || levelnumber < 1 || levelnumber > 5 ==> r == ""
    ensures color && 1 <= levelnumber <= 5 ==> |r| == 5 && r[0] == Esc && r[1..3] == "[3" && r[4] == 'm'
  {
    match levelnumber
    case 1 => if color then [Esc] + "[31m" else ""
    case 2 => if color then [Esc] + "[33m" else ""
    case 3 => if color then [Esc] + "[32m" else ""
    case 4 => if color then [Esc] + "[35m" else ""
    case 5 => if color then [Esc] + "[36m" else ""
    case _ => ""
  }

  /** The plain tag of a level: `[E]`, `[W]`, `[I]`, `[D]`, `[S]`. */
  function Tag(levelnumber: int): string
    requires 1 <= levelnumber <= 5
  {
    "[" + ["EWIDS"[levelnumber - 1]] + "]"
  }

  /** The short form is the level's colour, its plain tag and, when coloured,
      the reset code; without colour it is the plain tag alone. */
  lemma ShortFormIsColouredTag(levelnumber: int, color: bool)
    requires 1 <= levelnumber <= 5
    ensures LogColorShort(levelnumber, color) == LogColor(levelnumber, color) + Tag(levelnumber) + (if color then ColorReset else "")
    ensures !color ==> LogColorShort(levelnumber, color) == Tag(levelnumber)
  {
    match levelnumber
    case 1 => ColouredTagShape('1', 'E');
    case 2 => ColouredTagShape('3', 'W');
    case 3 => ColouredTagShape('2', 'I');
    case 4 => ColouredTagShape('5', 'D');
    case 5 => ColouredTagShape('6', 'S');
  }

  /** `ESC[3<d>m[<letter>]ESC[0m` is the colour code, the tag and the reset code. */
  lemma ColouredTagShape(d: char, letter: char)
    ensures [Esc] + ['[', '3', d, 'm', '[', letter, ']'] + [Esc] + "[0m"
            == ([Esc] + ['[', '3', d, 'm']) + ("[" + [letter] + "]") + ColorReset
  {
  }

  /** Any other level gets the reset code as its tag and no colour. */
  lemma UnknownLevelTag(levelnumber: int, color: bool)
    requires levelnumber < 1 || levelnumber > 5
    ensures LogColorShort(levelnumber, color) == ColorReset && LogColor(levelnumber, color) == ""
  {
  }

  // ---------------------------------------------------------------------
  // Template substitution
  // ---------------------------------------------------------------------

  /** The first argument of `template`: a string or some other value. */
  datatype TemplateArg = StringArg(s: string) | NonStringArg

  /** The second argument: an object with its own string-valued keys, `null`
      (whose `typeof` is also 'object'), or a value of another type. */
  datatype DataArg = ObjectArg(entries: map<string, string>) | NullArg | NonObjectArg

  datatype Outcome = Ok(text: string) | Throws

  function Prepend(prefix: string, o: Outcome): Outcome
  {
    match o
    case Ok(t) => Ok(prefix + t)
    case Throws => Throws
  }

  /** `\w`: ASCII letters, digits and the underscore. */
  predicate IsWordChar(c: char)
  {
    'a' <= c <= 'z' || 'A' <= c <= 'Z' || '0' <= c <= '9' || c == '_'
  }

  /** Length of the longest run of word characters at the start of s. */
  function WordRun(s: string): (n: nat)
    ensures n <= |s|
    ensures forall i :: 0 <= i < n ==> IsWordChar(s[i])
    ensures n < |s| ==> !IsWordChar(s[n])
  {
    if s != [] && IsWordChar(s[0]) then 1 + WordRun(s[1..]) else 0
  }

  /** Whether `/{{2}(\w*)}{2}/` matches at the start of s: the key and the
      length of the match. `\w*` is greedy and no word character is `}`, so
      only the longest run of word characters can be followed by `}}`. */
  function Placeholder(s: string): (r: Option<(string, nat)>)
    ensures r.Some? ==> 4 <= r.value.1 <= |s|
  {
    if |s| >= 2 && s[0] == '{' && s[1] == '{' then
      var j := 2 + WordRun(s[2..]);
      if j + 2 <= |s| && s[j] == '}' && s[j + 1] == '}' then Some((s[2..j], j + 2)) else None
    else None
  }

  /** The replacement callback: the own value of `key`, `"NULL"` when there
      is none, and a TypeError from `hasOwnProperty` on `null`. */
  function Lookup(data: DataArg, key: string): Outcome
  {
    match data
    case ObjectArg(entries) => Ok(if key in entries then entries[key] else "NULL")
    case _ => Throws
  }

  /** The global replace: scan left to right, replace each match and go on
      after it, copy every other character. On an object it never throws. */
  function Render(s: string, data: DataArg): (r: Outcome)
    ensures data.ObjectArg? ==> r.Ok?
    decreases |s|
  {
    if s == [] then Ok("")
    else match Placeholder(s)
      case Some((key, len)) =>
        (match Lookup(data, key)
         case Ok(v) => Prepend(v, Render(s[len..], data))
         case Throws => Throws)
      case None => Prepend([s[0]], Render(s[1..], data))
  }

  /** `template(templateid, data)`. */
  /** `template` throws unless it gets a string and an object (or `null`),
      and never throws on a string and an object. */
  function Template(templateid: TemplateArg, data: DataArg): (r: Outcome)
    ensures templateid.NonStringArg? || data.NonObjectArg? ==> r.Throws?
    ensures templateid.StringArg? && data.ObjectArg? ==> r.Ok?
  {
    if !templateid.StringArg? || data.NonObjectArg? then Throws
    else Render(templateid.s, data)
  }

  /** A template as literal text and placeholders. */
  datatype Piece = Lit(text: string) | Hole(key: string)

  function PieceText(piece: Piece): string
  {
    match piece
    case Lit(t) => t
    case Hole(k) => "{{" + k + "}}"
  }

  /** The value `template` substitutes for a key. */
  function ValueOf(entries: map<string, string>, key: string): string
  {
    if key in entries then entries[key] else "NULL"
  }

  function PieceValue(piece: Piece, entries: map<string, string>): string
  {
    match piece
    case Lit(t) => t
    case Hole(k) => ValueOf(entries, k)
  }

  function Assemble(pieces: seq<Piece>): string
  {
    if pieces == [] then "" else PieceText(pieces[0]) + Assemble(pieces[1..])
  }

  /** The text with every placeholder replaced by its value or `"NULL"`. */
  function Expand(pieces: seq<Piece>, entries: map<string, string>): string
  {
    if pieces == [] then "" else PieceValue(pieces[0], entries) + Expand(pieces[1..], entries)
  }

  /** No `{{` in t: a match starts at most at its last character. */
  predicate NoDoubleBrace(t: string)
  {
    forall i :: 0 <= i < |t| - 1 ==> t[i] != '{' || t[i + 1] != '{'
  }

  /** A literal without `{{`, or a key of word characters. */
  predicate PieceWellFormed(piece: Piece)
  {
    match piece
    case Lit(t) => NoDoubleBrace(t)
    case Hole(k) => forall c :: c in k ==> IsWordChar(c)
  }

  /** Every placeholder is a match of its own and no match starts inside a
      literal: a literal has no `{{`, and a placeholder follows it, so a
      trailing `{` of the literal meets `{{{`, which is no match. */
  predicate WellFormedPieces(pieces: seq<Piece>)
  {
    && (forall i :: 0 <= i < |pieces| ==> PieceWellFormed(pieces[i]))
    && (forall i :: 0 <= i < |pieces| - 1 ==> pieces[i].Hole? || pieces[i + 1].Hole?)
  }

  lemma WellFormedTail(pieces: seq<Piece>)
    requires WellFormedPieces(pieces) && pieces != []
    ensures PieceWellFormed(pieces[0]) && WellFormedPieces(pieces[1..])
  {
    forall i | 0 <= i < |pieces| - 1
      ensures PieceWellFormed(pieces[1..][i])
    {
      assert pieces[1..][i] == pieces[i + 1];
    }
    forall i | 0 <= i < |pieces| - 2
      ensures pieces[1..][i].Hole? || pieces[1..][i + 1].Hole?
    {
      assert pieces[1..][i] == pieces[i + 1] && pieces[1..][i + 1] == pieces[i + 2];
    }
  }

  /** No match starts at the last character of a literal: past a literal
      comes the end of the text or a placeholder. */
  lemma NoMatchAfterLiteral(pieces: seq<Piece>)
    requires WellFormedPieces(pieces) && pieces != [] && pieces[0].Lit?
    ensures Placeholder("{" + Assemble(pieces[1..])).None?
  {
    var rest := Assemble(pieces[1..]);
    if pieces[1..] != [] {
      assert pieces[1..][0] == pieces[1];
      var k := pieces[1].key;
      assert rest == "{{" + k + "}}" + Assemble(pieces[1..][1..]);
      var s := "{" + rest;
      assert s[2] == '{' && s[2..][0] == '{';
      assert WordRun(s[2..]) == 0;
    }
  }

  lemma PrependAssoc(a: string, b: string, o: Outcome)
    ensures Prepend(a, Prepend(b, o)) == Prepend(a + b, o)
  {
    match o
    case Ok(t) => assert a + (b + t) == (a + b) + t;
    case Throws =>
  }

  /** Text without `{{` is copied unchanged, when a trailing `{` does not
      start a match with what follows. */
  lemma {:induction false} RenderLiteral(lit: string, rest: string, data: DataArg)
    requires NoDoubleBrace(lit)
    requires lit != [] && lit[|lit| - 1] == '{' ==> Placeholder("{" + rest).None?
    ensures Render(lit + rest, data) == Prepend(lit, Render(rest, data))
  {
    var s := lit + rest;
    if lit == [] {
      assert s == rest;
      match Render(rest, data)
      case Ok(t) => assert "" + t == t;
      case Throws =>
    } else {
      assert s[0] == lit[0] && s[1..] == lit[1..] + rest;
      NoMatchInLiteral(lit, rest);
      LiteralTail(lit, rest);
      assert Render(s, data) == Prepend([s[0]], Render(s[1..], data));
      RenderLiteral(lit[1..], rest, data);
      PrependAssoc([lit[0]], lit[1..], Render(rest, data));
      assert [lit[0]] + lit[1..] == lit;
    }
  }

  /** No match starts at the first character of a literal. */
  lemma NoMatchInLiteral(lit: string, rest: string)
    requires lit != [] && NoDoubleBrace(lit)
    requires lit[|lit| - 1] == '{' ==> Placeholder("{" + rest).None?
    ensures Placeholder(lit + rest).None?
  {
    var s := lit + rest;
    if |lit| == 1 && lit[0] == '{' {
      assert s == "{" + rest;
    } else if |lit| >= 2 {
      assert s[0] == lit[0] && s[1] == lit[1];
    } else {
      assert s[0] == lit[0];
    }
  }

  /** The rest of a literal meets the requirements of `RenderLiteral` again. */
  lemma LiteralTail(lit: string, rest: string)
    requires lit != [] && NoDoubleBrace(lit)
    requires lit[|lit| - 1] == '{' ==> Placeholder("{" + rest).None?
    ensures NoDoubleBrace(lit[1..])
    ensures lit[1..] != [] && lit[1..][|lit[1..]| - 1] == '{' ==> Placeholder("{" + rest).None?
  {
    forall i | 0 <= i < |lit| - 2
      ensures lit[1..][i] != '{' || lit[1..][i + 1] != '{'
    {
      assert lit[1..][i] == lit[i + 1] && lit[1..][i + 1] == lit[i + 2];
    }
    if lit[1..] != [] {
      assert lit[1..][|lit[1..]| - 1] == lit[|lit| - 1];
    }
  }

  /** `{{key}}` with a key of word characters is one match, replaced by the key's value. */
  lemma RenderHole(key: string, rest: string, data: DataArg)
    requires forall c :: c in key ==> IsWordChar(c)
    ensures Render("{{" + key + "}}" + rest, data)
            == match Lookup(data, key)
               case Ok(v) => Prepend(v, Render(rest, data))
               case Throws => Throws
  {
    PlaceholderOfHole(key, rest);
  }

  /** The match at the start of `{{key}}rest` is the whole `{{key}}`. */
  lemma PlaceholderOfHole(key: string, rest: string)
    requires forall c :: c in key ==> IsWordChar(c)
    ensures var s := "{{" + key + "}}" + rest;
            s != [] && Placeholder(s) == Some((key, |key| + 4)) && s[|key| + 4..] == rest
  {
    var s := "{{" + key + "}}" + rest;
    assert s[2..] == key + "}}" + rest;
    WordRunOfWord(key, "}}" + rest);
    assert s[2 + |key|] == '}' && s[3 + |key|] == '}';
    assert s[2..2 + |key|] == key;
    assert s[|key| + 4..] == rest;
  }

  lemma {:induction false} WordRunOfWord(w: string, rest: string)
    requires forall c :: c in w ==> IsWordChar(c)
    requires rest != [] && rest[0] == '}'
    ensures WordRun(w + rest) == |w|
  {
    if w == [] {
      assert w + rest == rest;
    } else {
      assert (w + rest)[1..] == w[1..] + rest;
      assert w[0] in w;
      WordRunOfWord(w[1..], rest);
    }
  }

  /** Placeholder substitution: on an object, every placeholder becomes its
      value or `"NULL"` and the text around them is unchanged. */
  lemma {:induction false} TemplateSubstitutes(pieces: seq<Piece>, entries: map<string, string>)
    requires WellFormedPieces(pieces)
    ensures Render(Assemble(pieces), ObjectArg(entries)) == Ok(Expand(pieces, entries))
  {
    if pieces == [] {
    } else {
      var rest := Assemble(pieces[1..]);
      WellFormedTail(pieces);
      TemplateSubstitutes(pieces[1..], entries);
      match pieces[0]
      case Lit(t) =>
        NoMatchAfterLiteral(pieces);
        RenderLiteral(t, rest, ObjectArg(entries));
      case Hole(k) =>
        assert "{{" + k + "}}" + rest == Assemble(pieces);
        RenderHole(k, rest, ObjectArg(entries));
    }
  }

  /** With `null` data a template throws exactly when it holds a placeholder. */
  lemma {:induction false} NullDataThrowsOnPlaceholder(pieces: seq<Piece>)
    requires WellFormedPieces(pieces)
    ensures Render(Assemble(pieces), NullArg).Throws? <==> exists i :: 0 <= i < |pieces| && pieces[i].Hole?
  {
    if pieces != [] {
      var rest := Assemble(pieces[1..]);
      WellFormedTail(pieces);
      NullDataThrowsOnPlaceholder(pieces[1..]);
      assert (exists i :: 0 <= i < |pieces| && pieces[i].Hole?)
             <==> pieces[0].Hole? || exists i :: 0 <= i < |pieces| - 1 && pieces[1..][i].Hole? by {
        if exists i :: 0 <= i < |pieces| && pieces[i].Hole? {
          var i :| 0 <= i < |pieces| && pieces[i].Hole?;
          if i > 0 {
            assert pieces[1..][i - 1].Hole?;
          }
        }
        if exists i :: 0 <= i < |pieces| - 1 && pieces[1..][i].Hole? {
          var i :| 0 <= i < |pieces| - 1 && pieces[1..][i].Hole?;
          assert pieces[i + 1].Hole?;
        }
      }
      match pieces[0]
      case Lit(t) =>
        NoMatchAfterLiteral(pieces);
        RenderLiteral(t, rest, NullArg);
      case Hole(k) =>
        assert "{{" + k + "}}" + rest == Assemble(pieces);
        RenderHole(k, rest, NullArg);
    }
  }

  /** `{{{text}}}`: a placeholder wrapped in single braces, as in a
      JSON-shaped template. */
  const BracedTextPieces: seq<Piece> := [Lit("{")] + ([Hole("text")] + [Lit("}")])

  lemma BracedTextPiecesWellFormed()
    ensures WellFormedPieces(BracedTextPieces)
  {
    var p2 := [Lit("}")];
    var p1 := [Hole("text")] + p2;
    KeyIsWord("text");
    WellFormedCons(Lit("}"), []);
    assert [Lit("}")] + [] == p2;
    WellFormedCons(Hole("text"), p2);
    WellFormedCons(Lit("{"), p1);
  }

  lemma BracedTextPiecesAssemble()
    ensures Assemble(BracedTextPieces) == "{{{text}}}"
  {
    var p2 := [Lit("}")];
    var p1 := [Hole("text")] + p2;
    assert p2[1..] == [] && Assemble(p2) == "}" + "";
    assert p1[1..] == p2 && Assemble(p1) == "{{text}}" + "}";
    assert BracedTextPieces[1..] == p1;
  }

  lemma BracedTextPiecesExpand(entries: map<string, string>)
    ensures Expand(BracedTextPieces, entries) == "{" + ValueOf(entries, "text") + "}"
  {
    var p2 := [Lit("}")];
    var p1 := [Hole("text")] + p2;
    ExpandCons(Lit("}"), [], entries);
    assert [Lit("}")] + [] == p2;
    ExpandCons(Hole("text"), p2, entries);
    ExpandCons(Lit("{"), p1, entries);
    assert "}" + "" == "}";
  }

  /** The outer braces of `{{{text}}}` are copied around the value. */
  lemma BracedPlaceholderRenders(entries: map<string, string>)
    ensures Render("{{{text}}}", ObjectArg(entries)) == Ok("{" + ValueOf(entries, "text") + "}")
  {
    BracedTextPiecesWellFormed();
    BracedTextPiecesAssemble();
    BracedTextPiecesExpand(entries);
    TemplateSubstitutes(BracedTextPieces, entries);
  }

  /** A text without `{{` comes back unchanged. */
  lemma TemplateWithoutPlaceholderIsIdentity(s: string, entries: map<string, string>)
    ensures NoDoubleBrace(s) ==> Template(StringArg(s), ObjectArg(entries)) == Ok(s)
  {
    if NoDoubleBrace(s) {
      assert "{" + "" == "{";
      RenderLiteral(s, "", ObjectArg(entries));
      assert s + "" == s;
    }
  }

  // ---------------------------------------------------------------------
  // Line format and level gate
  // ---------------------------------------------------------------------

  /** The environment the logger reads. An empty `template` or `application`
      is unset (both are tested for truthiness). */
  datatype LogEnv = LogEnv(
    logLevel: Option<real>,
    template: string,
    application: string,
    color: bool,
    timestamp: string,
    hostname: string)

  /** `process.env.APPLICATION || "Application"`. */
  function ApplicationName(env: LogEnv): string
  {
    if env.application == "" then "Application" else env.application
  }

  /** `avaibleVars`: the values a `LOG_TEMPLATE` can refer to. */
  function AvailableVars(levelnumber: int, text: string, env: LogEnv): map<string, string>
    requires 1 <= levelnumber <= 5
  {
    map[
      "levelnumber" := IntToString(levelnumber),
      "level" := Levels[levelnumber - 1],
      "text" := text,
      "timestamp" := env.timestamp,
      "application" := ApplicationName(env),
      "logcolor" := LogColor(levelnumber, env.color),
      "colorreset" := ColorReset,
      "logcolorshort" := LogColorShort(levelnumber, env.color),
      "hostname" := env.hostname]
  }

  /** `logFormater(levelnumber, text)`. */
  function LogFormat(levelnumber: int, text: string, env: LogEnv): (r: string)
    requires 1 <= levelnumber <= 5
    ensures env.template == "" ==> r == DefaultLine(ApplicationName(env), env.timestamp, LogColorShort(levelnumber, env.color), text)
    ensures env.template != "" && NoDoubleBrace(env.template) ==> r == env.template
  {
    if env.template != "" then
      var vars := AvailableVars(levelnumber, text, env);
      TemplateWithoutPlaceholderIsIdentity(env.template, vars);
      Template(StringArg(env.template), ObjectArg(vars)).text
    else
      DefaultLine(ApplicationName(env), env.timestamp, LogColorShort(levelnumber, env.color), text)
  }

  /** `[${application}] [${timestamp}] ${tag} ${text}`. */
  function DefaultLine(application: string, timestamp: string, tag: string, text: string): string
  {
    "[" + (application + ("] [" + (timestamp + ("] " + (tag + (" " + text))))))
  }

  const DefaultTemplate: string := Assemble(DefaultPieces)

  /** The default line `[{{application}}] [{{timestamp}}] {{logcolorshort}} {{text}}`
      as literal text and placeholders. */
  const DefaultPieces: seq<Piece> :=
    [Lit("[")] + ([Hole("application")] + ([Lit("] [")] + ([Hole("timestamp")] + ([Lit("] ")] +
    ([Hole("logcolorshort")] + ([Lit(" ")] + [Hole("text")]))))))

  lemma WellFormedCons(piece: Piece, rest: seq<Piece>)
    requires PieceWellFormed(piece) && WellFormedPieces(rest)
    requires piece.Lit? && rest != [] ==> rest[0].Hole?
    ensures WellFormedPieces([piece] + rest)
  {
    var pieces := [piece] + rest;
    forall i | 0 <= i < |rest| + 1
      ensures PieceWellFormed(pieces[i])
    {
      if i > 0 {
        assert pieces[i] == rest[i - 1];
      }
    }
    forall i | 0 <= i < |rest|
      ensures pieces[i].Hole? || pieces[i + 1].Hole?
    {
      assert pieces[i + 1] == rest[i];
      if i > 0 {
        assert pieces[i] == rest[i - 1];
      }
    }
  }

  lemma ExpandCons(piece: Piece, rest: seq<Piece>, entries: map<string, string>)
    ensures Expand([piece] + rest, entries) == PieceValue(piece, entries) + Expand(rest, entries)
  {
    assert ([piece] + rest)[1..] == rest;
  }

  /** A key of lower-case letters is a placeholder key. */
  lemma KeyIsWord(k: string)
    requires forall i :: 0 <= i < |k| ==> 'a' <= k[i] <= 'z'
    ensures PieceWellFormed(Hole(k))
  {
    forall c | c in k
      ensures IsWordChar(c)
    {
      var i :| 0 <= i < |k| && k[i] == c;
    }
  }

  lemma DefaultPiecesWellFormed()
    ensures WellFormedPieces(DefaultPieces)
  {
    var p7 := [Hole("text")];
    var p6 := [Lit(" ")] + p7;
    var p5 := [Hole("logcolorshort")] + p6;
    var p4 := [Lit("] ")] + p5;
    var p3 := [Hole("timestamp")] + p4;
    var p2 := [Lit("] [")] + p3;
    var p1 := [Hole("application")] + p2;
    KeyIsWord("text");
    KeyIsWord("logcolorshort");
    KeyIsWord("timestamp");
    KeyIsWord("application");
    WellFormedCons(Hole("text"), []);
    assert [Hole("text")] + [] == p7;
    WellFormedCons(Lit(" "), p7);
    WellFormedCons(Hole("logcolorshort"), p6);
    WellFormedCons(Lit("] "), p5);
    WellFormedCons(Hole("timestamp"), p4);
    WellFormedCons(Lit("] ["), p3);
    WellFormedCons(Hole("application"), p2);
    WellFormedCons(Lit("["), p1);
  }

  lemma DefaultPiecesExpand(entries: map<string, string>)
    ensures Expand(DefaultPieces, entries)
            == DefaultLine(ValueOf(entries, "application"), ValueOf(entries, "timestamp"),
                           ValueOf(entries, "logcolorshort"), ValueOf(entries, "text"))
  {
    var p7 := [Hole("text")];
    var p6 := [Lit(" ")] + p7;
    var p5 := [Hole("logcolorshort")] + p6;
    var p4 := [Lit("] ")] + p5;
    var p3 := [Hole("timestamp")] + p4;
    var p2 := [Lit("] [")] + p3;
    var p1 := [Hole("application")] + p2;
    ExpandCons(Hole("text"), [], entries);
    assert [Hole("text")] + [] == p7;
    assert ValueOf(entries, "text") + "" == ValueOf(entries, "text");
    ExpandCons(Lit(" "), p7, entries);
    ExpandCons(Hole("logcolorshort"), p6, entries);
    ExpandCons(Lit("] "), p5, entries);
    ExpandCons(Hole("timestamp"), p4, entries);
    ExpandCons(Lit("] ["), p3, entries);
    ExpandCons(Hole("application"), p2, entries);
    ExpandCons(Lit("["), p1, entries);
  }

  /** What `DefaultTemplate` renders to on an object. */
  lemma DefaultTemplateRenders(entries: map<string, string>)
    ensures Render(DefaultTemplate, ObjectArg(entries))
            == Ok(DefaultLine(ValueOf(entries, "application"), ValueOf(entries, "timestamp"),
                              ValueOf(entries, "logcolorshort"), ValueOf(entries, "text")))
  {
    DefaultPiecesWellFormed();
    DefaultPiecesExpand(entries);
    TemplateSubstitutes(DefaultPieces, entries);
  }

  /** The default line is what the template `[{{application}}] [{{timestamp}}]
      {{logcolorshort}} {{text}}` produces. */
  lemma DefaultFormatIsTemplate(levelnumber: int, text: string, env: LogEnv)
    requires 1 <= levelnumber <= 5 && env.template == ""
    ensures LogFormat(levelnumber, text, env) == LogFormat(levelnumber, text, env.(template := DefaultTemplate))
  {
    var env' := env.(template := DefaultTemplate);
    var vars := AvailableVars(levelnumber, text, env');
    DefaultTemplateRenders(vars);
    assert ValueOf(vars, "application") == ApplicationName(env);
    assert ValueOf(vars, "timestamp") == env.timestamp;
    assert ValueOf(vars, "logcolorshort") == LogColorShort(levelnumber, env.color);
    assert ValueOf(vars, "text") == text;
  }

  /** One emitted line and the level whose sink receives it. */
  datatype Emission = Emission(levelnumber: nat, line: string)

  /** `logger(level, text)`: levels 1 to 4 pass when their number is at most
      the log level, `system` (5) always, an unknown name (0) never. */
  function Logger(level: string, text: string, env: LogEnv): (r: Option<Emission>)
    ensures var n := LevelNumber(level);
            r.Some? <==> n == 5 || (1 <= n <= 4 && n as real <= EffectiveLogLevel(env.logLevel))
    ensures r.Some? ==> r.value.levelnumber == LevelNumber(level) && r.value.line == LogFormat(r.value.levelnumber, text, env)
  {
    var levelnumber := LevelNumber(level);
    var loglevel := EffectiveLogLevel(env.logLevel);
    if 1 <= levelnumber <= 4 && levelnumber as real <= loglevel then
      Some(Emission(levelnumber, LogFormat(levelnumber, text, env)))
    else if levelnumber == 5 then
      Some(Emission(levelnumber, LogFormat(levelnumber, text, env)))
    else None
  }

  /** `system` is emitted at every log level; an unknown level name never is. */
  lemma SystemAlwaysUnknownNever(level: string, text: string, env: LogEnv)
    ensures ToLowerAscii(level) == "system" ==> Logger(level, text, env) == Some(Emission(5, LogFormat(5, text, env)))
    ensures ToLowerAscii(level) !in Levels ==> Logger(level, text, env).None?
  {
  }

  /** A level passes the gate iff its number is at most the log level; raising
      the log level, or choosing a more severe level, never silences a line. */
  lemma GateIsMonotone(level: string, level': string, text: string, env: LogEnv, env': LogEnv)
    requires 1 <= LevelNumber(level') <= LevelNumber(level) <= 4
    requires EffectiveLogLevel(env.logLevel) <= EffectiveLogLevel(env'.logLevel)
    ensures Logger(level, text, env).Some? <==> LevelNumber(level) as real <= EffectiveLogLevel(env.logLevel)
    ensures Logger(level, text, env).Some? ==> Logger(level', text, env').Some?
  {
  }

  /** With `LOG_LEVEL` unset every level but `debug` (index 3) is emitted. */
  lemma DefaultLevelIsInfo(i: nat, text: string, env: LogEnv)
    requires i < |Levels| && env.logLevel.None?
    ensures Logger(Levels[i], text, env).Some? <==> i != 3
  {
    LevelNames(i);
  }

  /** The level name is case-insensitive. */
  lemma LevelNameCaseInsensitive(level: string, text: string, env: LogEnv)
    ensures Logger(level, text, env) == Logger(ToLowerAscii(level), text, env)
  {
    assert ToLowerAscii(ToLowerAscii(level)) == ToLowerAscii(level);
  }
}

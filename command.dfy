/**
 * The command side of the tool (`get_command`): each argument of the command
 * template is formatted with Python's `str.format`, given the changed path as
 * its only positional argument, and the resulting argument list is run.  Only
 * the template forms `{}` and `{0}` (replacement fields) and `{{`, `}}`
 * (literal braces) are modelled.  Within them, Python's own errors are kept: a
 * second `{}` asks for a positional argument that does not exist, and `{}`
 * and `{0}` may not be mixed in one template.
 */
module Command {
  import opened Wrappers

  /** A template read into literal characters and replacement fields. */
  datatype Piece = Text(c: char) | AutoField | IndexField

  function Prepend(p: Piece, rest: Option<seq<Piece>>): Option<seq<Piece>> {
    match rest
    case None => None
    case Some(ps) => Some([p] + ps)
  }

  /**
   * The pieces of a template: `{{` and `}}` stand for one brace, `{}` is an
   * automatically numbered field and `{0}` a field naming the first argument.
   * `None` for any other use of a brace, which lies outside the modelled forms.
   */
  function Pieces(t: string): (r: Option<seq<Piece>>)
    ensures r.Some? ==> |r.value| <= |t|
    ensures BraceFree(t) ==> r == Some(Texts(t))
    decreases |t|
  {
    if t == [] then Some([])
    else if |t| >= 2 && t[0] == '{' && t[1] == '{' then Prepend(Text('{'), Pieces(t[2..]))
    else if |t| >= 2 && t[0] == '}' && t[1] == '}' then Prepend(Text('}'), Pieces(t[2..]))
    else if |t| >= 2 && t[0] == '{' && t[1] == '}' then Prepend(AutoField, Pieces(t[2..]))
    else if |t| >= 3 && t[0] == '{' && t[1] == '0' && t[2] == '}' then Prepend(IndexField, Pieces(t[3..]))
    else if t[0] == '{' || t[0] == '}' then None
    else Prepend(Text(t[0]), Pieces(t[1..]))
  }

  /** A template whose only fields are `{}` and `{0}`. */
  predicate SimpleTemplate(t: string) {
    Pieces(t).Some?
  }

  /** The exceptions `str.format` raises on a simple template. */
  datatype FormatError =
    | NumberingSwitch    // ValueError: `{}` and `{0}` in one template
    | IndexOutOfRange    // IndexError: a second `{}` asks for argument 1

  /** How the fields seen so far were numbered. */
  datatype Numbering = Unnumbered | Automatic | Manual

  function CountAuto(ps: seq<Piece>): nat {
    if ps == [] then 0 else (if ps[0].AutoField? then 1 else 0) + CountAuto(ps[1..])
  }

  function CountIndex(ps: seq<Piece>): nat {
    if ps == [] then 0 else (if ps[0].IndexField? then 1 else 0) + CountIndex(ps[1..])
  }

  /** Every field replaced by `arg`, numbering aside. */
  function Substitute(ps: seq<Piece>, arg: string): string {
    if ps == [] then []
    else (match ps[0] case Text(c) => [c] case _ => arg) + Substitute(ps[1..], arg)
  }

  /** Whether the fields of `ps`, read after fields numbered as `mode`, can all be served by one argument. */
  predicate NumberingFits(mode: Numbering, ps: seq<Piece>) {
    match mode
    case Unnumbered => CountAuto(ps) == 0 || (CountAuto(ps) == 1 && CountIndex(ps) == 0)
    case Automatic => CountAuto(ps) == 0 && CountIndex(ps) == 0
    case Manual => CountAuto(ps) == 0
  }

  function PrependText(s: string, r: Result<string, FormatError>): Result<string, FormatError> {
    match r
    case Ok(v) => Ok(s + v)
    case Err(e) => Err(e)
  }

  /**
   * Formatting from left to right with one positional argument: the first
   * field fixes the numbering, and the first field that breaks it raises.
   */
  function Render(ps: seq<Piece>, arg: string, mode: Numbering): (r: Result<string, FormatError>)
    ensures r.Ok? <==> NumberingFits(mode, ps)
    ensures r.Ok? ==> r.value == Substitute(ps, arg)
  {
    if ps == [] then Ok([])
    else match ps[0]
      case Text(c) => PrependText([c], Render(ps[1..], arg, mode))
      case AutoField =>
        if mode == Manual then Err(NumberingSwitch)
        else if mode == Automatic then Err(IndexOutOfRange)
        else PrependText(arg, Render(ps[1..], arg, Automatic))
      case IndexField =>
        if mode == Automatic then Err(NumberingSwitch)
        else PrependText(arg, Render(ps[1..], arg, Manual))
  }

  /** `t.format(arg)` */
  function Format(t: string, arg: string): (r: Result<string, FormatError>)
    requires SimpleTemplate(t)
    ensures r.Ok? <==> NumberingFits(Unnumbered, Pieces(t).value)
    ensures r.Ok? ==> r.value == Substitute(Pieces(t).value, arg)
  {
    Render(Pieces(t).value, arg, Unnumbered)
  }

  predicate BraceFree(s: string) {
    forall i :: 0 <= i < |s| ==> s[i] != '{' && s[i] != '}'
  }

  /** A brace doubled; any other character as it is. */
  function EscapeChar(c: char): string {
    if c == '{' then "{{" else if c == '}' then "}}" else [c]
  }

  /** The template that formats to `s`: every brace doubled. */
  function Escape(s: string): string {
    if s == [] then [] else EscapeChar(s[0]) + Escape(s[1..])
  }

  lemma {:induction false} EscapeBraceFree(s: string)
    requires BraceFree(s)
    ensures Escape(s) == s
  {
    if s != [] {
      EscapeBraceFree(s[1..]);
      assert [s[0]] + s[1..] == s;
    }
  }

  lemma PiecesOfEscapeChar(c: char, x: string)
    ensures Pieces(EscapeChar(c) + x) == Prepend(Text(c), Pieces(x))
  {
    var t := EscapeChar(c) + x;
    assert t[|EscapeChar(c)|..] == x;
    if c != '{' && c != '}' {
      assert t[0] == c;
    }
  }

  function Texts(s: string): (ps: seq<Piece>)
    ensures |ps| == |s|
    ensures forall i :: 0 <= i < |s| ==> ps[i] == Text(s[i])
  {
    if s == [] then [] else [Text(s[0])] + Texts(s[1..])
  }

  lemma PiecesOfAutoField(rest: string)
    ensures Pieces("{}" + rest) == Prepend(AutoField, Pieces(rest))
  {
    assert ("{}" + rest)[2..] == rest;
  }

  lemma PiecesOfIndexField(rest: string)
    ensures Pieces("{0}" + rest) == Prepend(IndexField, Pieces(rest))
  {
    assert ("{0}" + rest)[3..] == rest;
  }

  function Prepend2(ps: seq<Piece>, rest: Option<seq<Piece>>): Option<seq<Piece>> {
    match rest
    case None => None
    case Some(qs) => Some(ps + qs)
  }

  lemma PrependPrepend2(p: Piece, ps: seq<Piece>, o: Option<seq<Piece>>)
    ensures Prepend(p, Prepend2(ps, o)) == Prepend2([p] + ps, o)
  {
    match o {
      case None =>
      case Some(qs) => assert [p] + (ps + qs) == ([p] + ps) + qs;
    }
  }

  /** An escaped text reads back as its own characters, whatever template follows it. */
  lemma {:induction false} PiecesOfEscape(s: string, rest: string)
    ensures Pieces(Escape(s) + rest) == Prepend2(Texts(s), Pieces(rest))
  {
    if s != [] {
      var x := Escape(s[1..]) + rest;
      assert Escape(s) + rest == EscapeChar(s[0]) + x;
      PiecesOfEscapeChar(s[0], x);
      PiecesOfEscape(s[1..], rest);
      PrependPrepend2(Text(s[0]), Texts(s[1..]), Pieces(rest));
      assert Texts(s) == [Text(s[0])] + Texts(s[1..]);
    } else {
      assert Escape(s) + rest == rest;
      match Pieces(rest) {
        case None =>
        case Some(qs) => assert Texts(s) + qs == qs;
      }
    }
  }

  /** An escaped text on its own is a template of its characters. */
  lemma PiecesOfEscapeAlone(s: string)
    ensures Pieces(Escape(s)) == Some(Texts(s))
  {
    PiecesOfEscape(s, []);
    assert Escape(s) + [] == Escape(s);
    assert Pieces([]) == Some([]);
    assert Texts(s) + [] == Texts(s);
  }

  lemma PrependTextText(c: char, s: string, r: Result<string, FormatError>)
    ensures PrependText([c], PrependText(s, r)) == PrependText([c] + s, r)
  {
    match r {
      case Err(_) =>
      case Ok(v) => assert [c] + (s + v) == ([c] + s) + v;
    }
  }

  lemma {:induction false} TextsRender(s: string, rest: seq<Piece>, arg: string, mode: Numbering)
    ensures Render(Texts(s) + rest, arg, mode) == PrependText(s, Render(rest, arg, mode))
  {
    if s != [] {
      var ps := Texts(s) + rest;
      assert ps[0] == Text(s[0]);
      assert ps[1..] == Texts(s[1..]) + rest;
      assert Render(ps, arg, mode) == PrependText([s[0]], Render(ps[1..], arg, mode));
      TextsRender(s[1..], rest, arg, mode);
      PrependTextText(s[0], s[1..], Render(rest, arg, mode));
      assert [s[0]] + s[1..] == s;
    } else {
      assert Texts(s) + rest == rest;
      match Render(rest, arg, mode) {
        case Err(_) =>
        case Ok(v) => assert s + v == v;
      }
    }
  }

  /** Escaping is undone by formatting: the escaped text is a template that yields the text itself. */
  lemma EscapeRoundTrip(s: string, arg: string)
    ensures SimpleTemplate(Escape(s))
    ensures Format(Escape(s), arg) == Ok(s)
  {
    PiecesOfEscapeAlone(s);
    TextsRender(s, [], arg, Unnumbered);
    assert Texts(s) + [] == Texts(s);
    assert Render([], arg, Unnumbered) == Ok([]);
    assert s + [] == s;
  }

  /** A template argument without braces is passed on unchanged. */
  lemma BraceFreeUnchanged(t: string, arg: string)
    requires BraceFree(t)
    ensures SimpleTemplate(t) && Format(t, arg) == Ok(t)
  {
    EscapeBraceFree(t);
    EscapeRoundTrip(t, arg);
  }

  lemma PiecesAroundAutoField(before: string, after: string)
    ensures Pieces(Escape(before) + "{}" + Escape(after)) == Some(Texts(before) + ([AutoField] + Texts(after)))
  {
    var tail := "{}" + Escape(after);
    assert Escape(before) + "{}" + Escape(after) == Escape(before) + tail;
    PiecesOfEscapeAlone(after);
    PiecesOfAutoField(Escape(after));
    PiecesOfEscape(before, tail);
  }

  lemma RenderAutoFieldThenTexts(after: string, arg: string)
    ensures Render([AutoField] + Texts(after), arg, Unnumbered) == Ok(arg + after)
  {
    assert ([AutoField] + Texts(after))[1..] == Texts(after);
    TextsRender(after, [], arg, Automatic);
    assert Texts(after) + [] == Texts(after);
    assert Render([], arg, Automatic) == Ok([]);
    assert after + [] == after;
  }

  /** One `{}` between any two texts is replaced by the argument. */
  lemma SingleAutoField(before: string, after: string, arg: string)
    ensures SimpleTemplate(Escape(before) + "{}" + Escape(after))
    ensures Format(Escape(before) + "{}" + Escape(after), arg) == Ok(before + arg + after)
  {
    PiecesAroundAutoField(before, after);
    TextsRender(before, [AutoField] + Texts(after), arg, Unnumbered);
    RenderAutoFieldThenTexts(after, arg);
    assert before + (arg + after) == before + arg + after;
  }

  /** `s.join(parts)` */
  function Join(parts: seq<string>, s: string): string {
    if parts == [] then [] else if |parts| == 1 then parts[0] else parts[0] + s + Join(parts[1..], s)
  }

  /** The escaped parts with a `{0}` field between each two. */
  function IndexedTemplate(parts: seq<string>): string {
    if parts == [] then [] else if |parts| == 1 then Escape(parts[0])
    else Escape(parts[0]) + "{0}" + IndexedTemplate(parts[1..])
  }

  lemma {:induction false} TextsSubstitute(s: string, rest: seq<Piece>, arg: string)
    ensures CountAuto(Texts(s) + rest) == CountAuto(rest)
    ensures Substitute(Texts(s) + rest, arg) == s + Substitute(rest, arg)
  {
    if s != [] {
      TextsSubstitute(s[1..], rest, arg);
      assert (Texts(s) + rest)[1..] == Texts(s[1..]) + rest;
      assert s == [s[0]] + s[1..];
    } else {
      assert Texts(s) + rest == rest;
    }
  }

  lemma {:induction false} IndexedPieces(parts: seq<string>, arg: string)
    requires parts != []
    ensures Pieces(IndexedTemplate(parts)).Some?
    ensures CountAuto(Pieces(IndexedTemplate(parts)).value) == 0
    ensures Substitute(Pieces(IndexedTemplate(parts)).value, arg) == Join(parts, arg)
  {
    if |parts| == 1 {
      PiecesOfEscape(parts[0], []);
      assert Escape(parts[0]) + [] == Escape(parts[0]);
      TextsSubstitute(parts[0], [], arg);
      assert Texts(parts[0]) + [] == Texts(parts[0]);
    } else {
      IndexedPieces(parts[1..], arg);
      var tail := "{0}" + IndexedTemplate(parts[1..]);
      assert IndexedTemplate(parts) == Escape(parts[0]) + tail;
      PiecesOfIndexField(IndexedTemplate(parts[1..]));
      var qs := Pieces(IndexedTemplate(parts[1..])).value;
      assert Pieces(tail) == Some([IndexField] + qs);
      PiecesOfEscape(parts[0], tail);
      TextsSubstitute(parts[0], [IndexField] + qs, arg);
      assert ([IndexField] + qs)[1..] == qs;
    }
  }

  /** Every `{0}`, however many there are, is replaced by the argument. */
  lemma IndexFieldsEverywhere(parts: seq<string>, arg: string)
    requires parts != []
    ensures SimpleTemplate(IndexedTemplate(parts))
    ensures Format(IndexedTemplate(parts), arg) == Ok(Join(parts, arg))
  {
    IndexedPieces(parts, arg);
  }

  /** A second `{}` raises IndexError, and `{}` with `{0}` raises ValueError, in either order. */
  lemma NumberingErrors(arg: string)
    ensures SimpleTemplate("{}{}") && Format("{}{}", arg) == Err(IndexOutOfRange)
    ensures SimpleTemplate("{}{0}") && Format("{}{0}", arg) == Err(NumberingSwitch)
    ensures SimpleTemplate("{0}{}") && Format("{0}{}", arg) == Err(NumberingSwitch)
  {
    assert Pieces([]) == Some([]);
    PiecesOfAutoField([]);
    PiecesOfIndexField([]);
    assert "{}" + [] == "{}" && "{0}" + [] == "{0}";
    PiecesOfAutoField("{}");
    PiecesOfAutoField("{0}");
    PiecesOfIndexField("{}");
    assert "{}" + "{}" == "{}{}" && "{}" + "{0}" == "{}{0}" && "{0}" + "{}" == "{0}{}";
    assert [AutoField] + [] == [AutoField] && [IndexField] + [] == [IndexField];
    assert Pieces("{}") == Some([AutoField]);
    assert Pieces("{0}") == Some([IndexField]);
    assert [AutoField] + [AutoField] == [AutoField, AutoField];
    assert [AutoField] + [IndexField] == [AutoField, IndexField];
    assert [IndexField] + [AutoField] == [IndexField, AutoField];
    assert Pieces("{}{}") == Some([AutoField, AutoField]);
    assert Pieces("{}{0}") == Some([AutoField, IndexField]);
    assert Pieces("{0}{}") == Some([IndexField, AutoField]);
    assert [AutoField, AutoField][1..] == [AutoField];
    assert [AutoField, IndexField][1..] == [IndexField];
    assert [IndexField, AutoField][1..] == [AutoField];
    assert Render([AutoField], arg, Automatic) == Err(IndexOutOfRange);
    assert Render([IndexField], arg, Automatic) == Err(NumberingSwitch);
    assert Render([AutoField], arg, Manual) == Err(NumberingSwitch);
  }

  predicate AllSimple(args: seq<string>) {
    forall i :: 0 <= i < |args| ==> SimpleTemplate(args[i])
  }

  /**
   * `[x.format(path) for x in args]`: every argument formatted with the path,
   * the first one that raises ending the comprehension with its exception.
   */
  function BuildCommand(args: seq<string>, path: string): (r: Result<seq<string>, FormatError>)
    requires AllSimple(args)
    ensures r.Ok? ==> |r.value| == |args|
                      && forall i :: 0 <= i < |args| ==> Format(args[i], path) == Ok(r.value[i])
    ensures r.Err? ==> exists i :: 0 <= i < |args| && Format(args[i], path) == Err(r.error)
                                   && forall j :: 0 <= j < i ==> Format(args[j], path).Ok?
  {
    if args == [] then Ok([])
    else match Format(args[0], path)
      case Err(e) => Err(e)
      case Ok(first) =>
        match BuildCommand(args[1..], path)
        case Err(e) => Err(e)
        case Ok(rest) => Ok([first] + rest)
  }

  /** Arguments without braces reach the command unchanged. */
  lemma BraceFreeCommand(args: seq<string>, path: string)
    requires forall i :: 0 <= i < |args| ==> BraceFree(args[i])
    ensures AllSimple(args) && BuildCommand(args, path) == Ok(args)
  {
    forall i | 0 <= i < |args| ensures SimpleTemplate(args[i]) && Format(args[i], path) == Ok(args[i]) {
      BraceFreeUnchanged(args[i], path);
    }
    var r := BuildCommand(args, path);
    assert r.Ok?;
    assert r.value == args;
  }

  lemma BuildTwo(a: string, b: string, path: string, x: string, y: string)
    requires SimpleTemplate(a) && SimpleTemplate(b)
    requires Format(a, path) == Ok(x) && Format(b, path) == Ok(y)
    ensures AllSimple([a, b])
    ensures BuildCommand([a, b], path) == Ok([x, y])
  {
    assert AllSimple([b]) && AllSimple([]);
    assert [a, b][1..] == [b] && [b][1..] == [];
    assert BuildCommand([], path) == Ok([]);
    assert [y] + [] == [y] && [x] + [y] == [x, y];
    assert BuildCommand([b], path) == Ok([y]);
  }

  lemma FieldAlone(arg: string)
    ensures SimpleTemplate("{}") && Format("{}", arg) == Ok(arg)
  {
    SingleAutoField([], [], arg);
    assert Escape([]) == [];
    assert [] + "{}" + [] == "{}";
    assert [] + arg + [] == arg;
  }

  lemma EchoUnchanged(arg: string)
    ensures SimpleTemplate("echo") && Format("echo", arg) == Ok("echo")
  {
    var t := "echo";
    assert BraceFree(t) by {
      forall i | 0 <= i < |t| ensures t[i] != '{' && t[i] != '}' {
      }
    }
    BraceFreeUnchanged(t, arg);
  }

  /** `echo {}` run for `/tmp/a.txt` becomes `echo /tmp/a.txt`. */
  lemma EchoExample()
    ensures AllSimple(["echo", "{}"])
    ensures BuildCommand(["echo", "{}"], "/tmp/a.txt") == Ok(["echo", "/tmp/a.txt"])
  {
    EchoUnchanged("/tmp/a.txt");
    FieldAlone("/tmp/a.txt");
    BuildTwo("echo", "{}", "/tmp/a.txt", "echo", "/tmp/a.txt");
  }

  /** What `subprocess.check_call` found: the command's exit status, or that it could not be started. */
  datatype ProcessOutcome = Exited(status: int) | LaunchFailed

  /** The exceptions that leave the change handler. */
  datatype Raised =
    | TemplateError(error: FormatError)  // raised while building the argument list
    | EmptyCommand                       // an empty argument list names no program to run
    | LaunchError                        // OSError: the program could not be started

  datatype HandlerOutcome =
    | Succeeded(cmd: seq<string>)                  // exit status 0
    | FailureLogged(cmd: seq<string>, status: int) // CalledProcessError, caught and logged
    | Propagated(reason: Raised)

  /**
   * The handler `get_command(args)` returns, run for a change of `path`, with
   * `outcome` standing for what the operating system did with the command.
   * A non-zero exit status is caught and logged; every other failure leaves
   * the handler.
   */
  function HandleChange(args: seq<string>, path: string, outcome: ProcessOutcome): (r: HandlerOutcome)
    requires AllSimple(args)
    ensures r.Propagated? <==>
              (BuildCommand(args, path).Err? || BuildCommand(args, path) == Ok([]) || outcome.LaunchFailed?)
    ensures r.Succeeded? ==> outcome == Exited(0) && BuildCommand(args, path) == Ok(r.cmd)
    ensures r.FailureLogged? ==> outcome == Exited(r.status) && r.status != 0
                                 && BuildCommand(args, path) == Ok(r.cmd)
  {
    match BuildCommand(args, path)
    case Err(e) => Propagated(TemplateError(e))
    case Ok(cmd) =>
      if cmd == [] then Propagated(EmptyCommand)
      else match outcome
        case LaunchFailed => Propagated(LaunchError)
        case Exited(status) => if status == 0 then Succeeded(cmd) else FailureLogged(cmd, status)
  }

  /** Whatever exit status the command ends with, the handler returns normally and reports it. */
  lemma ExitStatusNeverPropagates(args: seq<string>, path: string, status: int)
    requires AllSimple(args)
    requires BuildCommand(args, path).Ok? && BuildCommand(args, path).value != []
    ensures var r := HandleChange(args, path, Exited(status));
            if status == 0 then r.Succeeded? else r == FailureLogged(BuildCommand(args, path).value, status)
  {
  }
}

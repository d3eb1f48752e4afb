// Wrapping a status line command in "edc ai statusline", and taking the wrapper off again.
module StatuslineWrap {
  import opened Folds

  const QUOTE: char := '\''
  const NEWLINE: char := '\n'
  const ESCAPED: string := "'\\''"
  const SUFFIX: string := " ai statusline"
  const DASHES: string := " -- "
  const SHELL: string := "sh -c "

  // Strings, as the Go library treats them.

  predicate IsSpace(c: char) {
    c == ' ' || c == '\t' || c == '\n' || c == '\r' || c == 12 as char
  }

  /** Replaces each occurrence, from the left and without overlap. */
  function ReplaceAll(s: string, old_: string, new_: string): string
    requires old_ != ""
  {
    if |s| < |old_| then s
    else if s[..|old_|] == old_ then new_ + ReplaceAll(s[|old_|..], old_, new_)
    else [s[0]] + ReplaceAll(s[1..], old_, new_)
  }

  /** The position of the first character for which p holds, or the length. */
  function IndexOf(s: string, p: char -> bool): (i: nat)
    ensures i <= |s| && (forall k :: 0 <= k < i ==> !p(s[k])) && (i < |s| ==> p(s[i]))
  {
    if s == "" then 0 else if p(s[0]) then 0 else 1 + IndexOf(s[1..], p)
  }

  function TrimLeft(s: string): string {
    if s != "" && s[0] == QUOTE then TrimLeft(s[1..]) else s
  }

  function TrimRight(s: string, c: char): string {
    if s != "" && s[|s| - 1] == c then TrimRight(s[..|s| - 1], c) else s
  }

  function LastElement(s: string): string {
    if s == "" || s[|s| - 1] == '/' then "" else LastElement(s[..|s| - 1]) + [s[|s| - 1]]
  }

  /** The last element of a path (filepath.Base). */
  function Base(path: string): string {
    if path == "" then "."
    else
      var p := TrimRight(path, '/');
      if p == "" then "/" else LastElement(p)
  }

  // Quoting for the shell.

  predicate PlainChar(c: char) {
    || 'A' <= c <= 'Z' || 'a' <= c <= 'z' || '0' <= c <= '9'
    || c in "_./~:@%+=,-"
  }

  /** A word the shell passes on as it is. */
  predicate IsPlain(s: string) {
    s != "" && forall i :: 0 <= i < |s| ==> PlainChar(s[i])
  }

  function Quote(text: string): string {
    if IsPlain(text) && text[0] != '~' then text
    else [QUOTE] + ReplaceAll(text, [QUOTE], ESCAPED) + [QUOTE]
  }

  /** Undoes Quote, and nothing else. */
  function Unquote(text: string): Option<string> {
    if |text| < 2 || text[0] != QUOTE || text[|text| - 1] != QUOTE then None
    else
      var unquoted := ReplaceAll(text[1..|text| - 1], ESCAPED, [QUOTE]);
      if Quote(unquoted) != text then None else Some(unquoted)
  }

  function Wrap(executable: string, command: string): string {
    var prefix := Quote(executable) + SUFFIX;
    if command == "" then prefix
    else if IsPlain(command) then prefix + DASHES + command
    else prefix + DASHES + SHELL + Quote(command)
  }

  /** What follows the executable in a wrapper: the wrapped part, on one line. */
  function Tail(rest: string): Option<string> {
    if rest == SUFFIX then Some("")
    else if SUFFIX + DASHES <= rest && NEWLINE !in rest[|SUFFIX + DASHES|..] then Some(rest[|SUFFIX + DASHES|..])
    else None
  }

  datatype Match = Match(executable: string, inner: string)

  /** What the wrapper pattern matches: a quoted word, tried first, or one without spaces, and then the tail. */
  function MatchQuoted(command: string): Option<Match> {
    if command == "" || command[0] != QUOTE then None
    else
      var k := 1 + IndexOf(command[1..], c => c == QUOTE);
      if k >= |command| then None
      else match Tail(command[k + 1..])
           case Some(inner) => Some(Match(command[..k + 1], inner))
           case None => None
  }

  function MatchPlain(command: string): Option<Match> {
    var k := IndexOf(command, c => IsSpace(c));
    if k == 0 then None
    else match Tail(command[k..])
         case Some(inner) => Some(Match(command[..k], inner))
         case None => None
  }

  function MatchWrapper(command: string): Option<Match> {
    if MatchQuoted(command).Some? then MatchQuoted(command) else MatchPlain(command)
  }

  /** The command inside a wrapper, when there is a wrapper and it calls edc. */
  function Unwrap(command: string): Option<string> {
    match MatchWrapper(command)
    case None => None
    case Some(m) =>
      if Base(TrimRight(TrimLeft(m.executable), QUOTE)) != "edc" then None
      else if SHELL <= m.inner && Unquote(m.inner[|SHELL|..]).Some? then Unquote(m.inner[|SHELL|..])
      else Some(m.inner)
  }

  // Escaping and its undoing.

  lemma {:induction false} EscapeStep(text: string)
    requires text != ""
    ensures ReplaceAll(text, [QUOTE], ESCAPED)
            == (if text[0] == QUOTE then ESCAPED else [text[0]]) + ReplaceAll(text[1..], [QUOTE], ESCAPED)
  {
    assert text[..1] == [text[0]];
  }

  lemma {:induction false} EscapeUndone(text: string)
    ensures ReplaceAll(ReplaceAll(text, [QUOTE], ESCAPED), ESCAPED, [QUOTE]) == text
  {
    if text != "" {
      EscapeStep(text);
      EscapeUndone(text[1..]);
      var rest := ReplaceAll(text[1..], [QUOTE], ESCAPED);
      if text[0] == QUOTE {
        assert (ESCAPED + rest)[..4] == ESCAPED && (ESCAPED + rest)[4..] == rest;
        assert [QUOTE] + text[1..] == text;
      } else {
        assert ([text[0]] + rest)[1..] == rest;
        if |rest| >= 3 {
          assert ([text[0]] + rest)[..4][0] != ESCAPED[0];
        } else {
          ShortStays(rest);
        }
        assert [text[0]] + text[1..] == text;
      }
    }
  }

  lemma ShortStays(s: string)
    requires |s| < 4
    ensures ReplaceAll(s, ESCAPED, [QUOTE]) == s
  {
  }

  lemma {:induction false} NothingToEscape(text: string)
    requires QUOTE !in text
    ensures ReplaceAll(text, [QUOTE], ESCAPED) == text
  {
    if text != "" {
      EscapeStep(text);
      NothingToEscape(text[1..]);
    }
  }

  lemma {:induction false} EscapeKeepsNewlines(text: string)
    ensures NEWLINE in ReplaceAll(text, [QUOTE], ESCAPED) <==> NEWLINE in text
  {
    if text != "" {
      EscapeStep(text);
      EscapeKeepsNewlines(text[1..]);
      assert NEWLINE in text <==> text[0] == NEWLINE || NEWLINE in text[1..];
    }
  }

  /** Quoting a text that needs quotes is undone by unquoting, whatever quotes and backslashes it holds. */
  lemma QuoteUndone(text: string)
    requires !IsPlain(text) || text[0] == '~'
    ensures Unquote(Quote(text)) == Some(text)
  {
    var inner := ReplaceAll(text, [QUOTE], ESCAPED);
    assert Quote(text)[1..|Quote(text)| - 1] == inner;
    EscapeUndone(text);
  }

  lemma {:induction false} IndexAt(s: string, p: char -> bool, i: nat)
    requires i < |s| && p(s[i]) && forall k :: 0 <= k < i ==> !p(s[k])
    ensures IndexOf(s, p) == i
  {
  }

  /** How a wrapper with a given tail is taken apart, for an executable without single quotes. */
  lemma MatchTail(executable: string, tail: string)
    requires executable != "" && QUOTE !in executable && SUFFIX <= tail
    ensures Tail(tail).Some? ==>
              MatchWrapper(Quote(executable) + tail) == Some(Match(Quote(executable), Tail(tail).value))
  {
    NothingToEscape(executable);
    if IsPlain(executable) && executable[0] != '~' {
      MatchPlainTail(executable, tail);
    } else {
      MatchQuotedTail(executable, tail);
    }
  }

  lemma PlainIsNotQuoted(command: string)
    requires command != "" && PlainChar(command[0])
    ensures MatchQuoted(command).None?
  {
  }

  lemma PlainHasNoSpace(text: string)
    requires IsPlain(text)
    ensures forall k :: 0 <= k < |text| ==> !IsSpace(text[k])
  {
  }

  lemma MatchPlainTail(executable: string, tail: string)
    requires executable != "" && SUFFIX <= tail && IsPlain(executable) && executable[0] != '~'
    requires Quote(executable) == executable
    ensures Tail(tail).Some? ==> MatchWrapper(executable + tail) == Some(Match(executable, Tail(tail).value))
  {
    hide SUFFIX, DASHES, Tail, MatchQuoted, IsSpace;
    SuffixStarts();
    var command := executable + tail;
    assert tail[0] == SUFFIX[0] && command[|executable|] == tail[0];
    assert command[0] == executable[0] && PlainChar(executable[0]);
    PlainIsNotQuoted(command);
    PlainHasNoSpace(executable);
    IndexAt(command, c => IsSpace(c), |executable|);
    assert command[|executable|..] == tail && command[..|executable|] == executable;
  }

  lemma MatchQuotedTail(executable: string, tail: string)
    requires executable != "" && QUOTE !in executable && SUFFIX <= tail
    ensures var head := [QUOTE] + executable + [QUOTE];
            Tail(tail).Some? ==> MatchWrapper(head + tail) == Some(Match(head, Tail(tail).value))
  {
    hide SUFFIX, DASHES, Tail;
    var head := [QUOTE] + executable + [QUOTE];
    var command := head + tail;
    assert forall k :: 0 <= k < |executable| ==> command[1..][k] == executable[k];
    IndexAt(command[1..], c => c == QUOTE, |executable|);
    assert command[|executable| + 2..] == tail && command[..|executable| + 2] == head;
  }

  /** Trimming quotes off a quoted path that holds none leaves the path. */
  lemma TrimQuoted(executable: string)
    requires executable != "" && QUOTE !in executable
    ensures TrimRight(TrimLeft(Quote(executable)), QUOTE) == executable
  {
    NothingToEscape(executable);
    if IsPlain(executable) && executable[0] != '~' {
      assert executable[0] != QUOTE && executable[|executable| - 1] != QUOTE;
    } else {
      var head := [QUOTE] + executable + [QUOTE];
      assert head[1..] == executable + [QUOTE];
      assert TrimLeft(head) == TrimLeft(head[1..]) == executable + [QUOTE] by {
        assert (executable + [QUOTE])[0] == executable[0];
        assert executable[0] in executable;
      }
      assert (executable + [QUOTE])[..|executable|] == executable;
      assert executable[|executable| - 1] in executable;
    }
  }

  lemma BaseNotEmpty(executable: string)
    requires Base(executable) == "edc"
    ensures executable != ""
  {
  }

  lemma PlainHolds(text: string)
    requires IsPlain(text)
    ensures NEWLINE !in text && QUOTE !in text && !(SHELL <= text)
  {
    if |text| > 2 {
      assert PlainChar(text[2]);
    }
    forall c | c in text
      ensures PlainChar(c)
    {
    }
  }

  /** The tail of a wrapper gives back what was put there, exactly when it is on one line. */
  lemma TailOf(part: string)
    ensures Tail(SUFFIX + DASHES + part) == if NEWLINE in part then None else Some(part)
  {
    var rest := SUFFIX + DASHES + part;
    assert rest[|SUFFIX + DASHES|..] == part;
  }

  /** For an executable whose base name is edc and that holds no single quote, wrapping is undone by unwrapping,
      whatever the command: words, quotes, backslashes, nothing at all. */
  lemma WrapUndone(executable: string, command: string)
    requires Base(executable) == "edc" && QUOTE !in executable && NEWLINE !in command
    ensures Unwrap(Wrap(executable, command)) == Some(command)
  {
    hide ReplaceAll, Unquote, MatchWrapper, Tail, TrimLeft, TrimRight, Base, IsPlain, SUFFIX, DASHES, SHELL;
    OnOneLine();
    hide Wrap;
    BaseNotEmpty(executable);
    TrimQuoted(executable);
    WrapShape(executable, command);
    MatchTail(executable, TailFor(command));
    if command == "" {
      TailOfNothing();
    } else if IsPlain(command) {
      TailOf(command);
      PlainHolds(command);
    } else {
      var part := SHELL + Quote(command);
      EscapeKeepsNewlines(command);
      assert NEWLINE !in part;
      TailOf(part);
      QuoteUndone(command);
      assert part[|SHELL|..] == Quote(command);
    }
  }

  /** What a wrapper holds after the executable. */
  function TailFor(command: string): (tail: string)
    ensures SUFFIX <= tail
  {
    if command == "" then SUFFIX
    else if IsPlain(command) then SUFFIX + DASHES + command
    else SUFFIX + DASHES + (SHELL + Quote(command))
  }

  lemma WrapShape(executable: string, command: string)
    ensures Wrap(executable, command) == Quote(executable) + TailFor(command)
  {
    hide Quote, IsPlain, SUFFIX, DASHES, SHELL;
    Regroup(Quote(executable), SUFFIX, DASHES, command, "");
    Regroup(Quote(executable), SUFFIX, DASHES, SHELL, Quote(command));
  }

  lemma Regroup(a: string, b: string, c: string, d: string, e: string)
    ensures a + b + c + d == a + (b + c + d)
    ensures a + b + c + d + e == a + (b + c + (d + e))
  {
  }

  lemma OnOneLine()
    ensures NEWLINE !in SHELL && SHELL != ""
  {
  }

  lemma SuffixStarts()
    ensures SUFFIX != "" && IsSpace(SUFFIX[0])
  {
  }

  lemma TailOfNothing()
    ensures Tail(SUFFIX) == Some("")
  {
  }

  lemma TailOnOneLine(rest: string)
    ensures Tail(rest).Some? ==> NEWLINE !in rest
  {
    if SUFFIX + DASHES <= rest {
      assert rest == SUFFIX + DASHES + rest[|SUFFIX + DASHES|..];
    }
  }

  lemma NoPlainMatch(head: string, part: string)
    requires NEWLINE in part
    ensures MatchPlain(head + part) == None
  {
    hide Tail;
    var wrapped := head + part;
    var n: nat :| n < |part| && part[n] == NEWLINE;
    assert wrapped[|head| + n] == NEWLINE;
    var k := IndexOf(wrapped, c => IsSpace(c));
    assert k <= |head| + n;
    assert wrapped[k..][|head| + n - k] == NEWLINE;
    TailOnOneLine(wrapped[k..]);
  }

  lemma NoQuotedMatch(executable: string, part: string)
    requires executable != "" && QUOTE !in executable && NEWLINE in part
    ensures MatchQuoted(Quote(executable) + part) == None
  {
    hide Tail, ReplaceAll;
    var wrapped := Quote(executable) + part;
    QuotedShape(executable);
    if wrapped[0] == QUOTE {
      HeadClosed(executable, part);
      assert wrapped[|Quote(executable)|..] == part;
      TailOnOneLine(part);
    }
  }

  lemma HeadClosed(executable: string, part: string)
    requires executable != "" && QUOTE !in executable
    requires Quote(executable) != "" && Quote(executable)[0] == QUOTE
    ensures var wrapped := Quote(executable) + part;
            1 + IndexOf(wrapped[1..], c => c == QUOTE) == |Quote(executable)| - 1
  {
    hide Quote;
    var wrapped := Quote(executable) + part;
    QuotedShape(executable);
    assert wrapped[1..] == executable + ([QUOTE] + part);
    forall k | 0 <= k < |executable|
      ensures wrapped[1..][k] != QUOTE
    {
      assert wrapped[1..][k] == executable[k] && executable[k] in executable;
    }
    IndexAt(wrapped[1..], c => c == QUOTE, |executable|);
  }

  lemma QuotedShape(executable: string)
    requires executable != "" && QUOTE !in executable
    ensures Quote(executable) != ""
    ensures Quote(executable)[0] == QUOTE ==> Quote(executable) == [QUOTE] + executable + [QUOTE]
  {
    NothingToEscape(executable);
    assert executable[0] in executable;
  }

  /** A command over several lines is wrapped in a way that is not recognized again. */
  lemma LinesNotUndone(executable: string, command: string)
    requires executable != "" && QUOTE !in executable && NEWLINE in command
    ensures Unwrap(Wrap(executable, command)) == None
  {
    hide ReplaceAll, Unquote, MatchQuoted, MatchPlain, TrimLeft, TrimRight, Base, IsPlain, SUFFIX, DASHES, SHELL;
    if IsPlain(command) {
      PlainHolds(command);
    }
    hide Wrap, Quote;
    WrapShape(executable, command);
    NewlineQuoted(command);
    NewlineAfter(SUFFIX + DASHES, SHELL, Quote(command));
    NoPlainMatch(Quote(executable), TailFor(command));
    NoQuotedMatch(executable, TailFor(command));
  }

  lemma NewlineAfter(a: string, b: string, text: string)
    requires NEWLINE in text
    ensures NEWLINE in a + (b + text)
  {
  }

  lemma NewlineQuoted(command: string)
    requires NEWLINE in command
    ensures NEWLINE in Quote(command)
  {
    EscapeKeepsNewlines(command);
  }

  // Installing the wrapper in the settings and uninstalling it.

  /** A settings value, with objects as members in file order. */
  datatype Value = Text(text: string) | Null | Object(members: seq<Member>) | Other(raw: string)
  datatype Member = Member(key: string, value: Value)

  /** What an edit comes to: it cannot be made, there is nothing to do, or these are the settings now. */
  datatype Edit = Failed | Unchanged | Changed(settings: seq<Member>)

  function IndexKey(members: seq<Member>, key: string): (i: int)
    ensures -1 <= i < |members|
    ensures i >= 0 ==> members[i].key == key && forall k :: 0 <= k < i ==> members[k].key != key
    ensures i < 0 ==> forall k :: 0 <= k < |members| ==> members[k].key != key
  {
    if members == [] then -1
    else if members[0].key == key then 0
    else
      var i := IndexKey(members[1..], key);
      if i < 0 then -1 else i + 1
  }

  const STATUS_LINE: string := "statusLine"
  const COMMAND: string := "command"
  const TYPE: string := "type"

  /** The statusLine object of the settings; none when there is no such member or it is no object. */
  function LineOf(members: seq<Member>): Option<seq<Member>> {
    var i := IndexKey(members, STATUS_LINE);
    if i < 0 then Some([]) else if members[i].value.Object? then Some(members[i].value.members) else None
  }

  /** The command of a statusLine: empty when there is none or it is null, and none when it is no text. */
  function CommandOf(line: seq<Member>): Option<string> {
    var i := IndexKey(line, COMMAND);
    if i < 0 || line[i].value.Null? then Some("") else if line[i].value.Text? then Some(line[i].value.text) else None
  }

  function WithCommand(line: seq<Member>, command: string): seq<Member> {
    var i := IndexKey(line, COMMAND);
    if i >= 0 then line[i := line[i].(value := Text(command))]
    else
      var typed := if IndexKey(line, TYPE) < 0 then line + [Member(TYPE, Text("command"))] else line;
      typed + [Member(COMMAND, Text(command))]
  }

  function WithLine(members: seq<Member>, line: seq<Member>): seq<Member> {
    var i := IndexKey(members, STATUS_LINE);
    if i >= 0 then members[i := members[i].(value := Object(line))] else members + [Member(STATUS_LINE, Object(line))]
  }

  function Without(members: seq<Member>, i: int): seq<Member>
    requires 0 <= i < |members|
  {
    members[..i] + members[i + 1..]
  }

  function WithoutCommand(members: seq<Member>, line: seq<Member>): seq<Member> {
    var c, i := IndexKey(line, COMMAND), IndexKey(members, STATUS_LINE);
    if c < 0 || i < 0 then members
    else
      var rest := Without(line, c);
      if rest == [] || (|rest| == 1 && rest[0].key == TYPE) then Without(members, i)
      else members[i := members[i].(value := Object(rest))]
  }

  function Edited(members: seq<Member>, executable: string, install: bool): Edit {
    match LineOf(members)
    case None => Failed
    case Some(line) =>
      match CommandOf(line)
      case None => Failed
      case Some(before) =>
        var inner := Unwrap(before);
        if install == inner.Some? then Unchanged
        else if install then Changed(WithLine(members, WithCommand(line, Wrap(executable, before))))
        else if inner == Some("") then Changed(WithoutCommand(members, line))
        else Changed(WithLine(members, WithCommand(line, inner.value)))
  }

  /** The edit as the program makes it, on the decoded members. */
  method EditStatusline(members: seq<Member>, executable: string, install: bool) returns (edit: Edit)
    ensures edit == Edited(members, executable, install)
  {
    hide Unwrap, Wrap, IndexKey;
    var index := IndexKey(members, STATUS_LINE);
    var line: seq<Member> := [];
    if index >= 0 {
      if !members[index].value.Object? {
        return Failed;
      }
      line := members[index].value.members;
    }
    var before := "";
    var commandIndex := IndexKey(line, COMMAND);
    if commandIndex >= 0 {
      match line[commandIndex].value {
        case Text(text) => before := text;
        case Null =>
        case _ => return Failed;
      }
    }
    var inner := Unwrap(before);
    if (install && inner.Some?) || (!install && inner.None?) {
      return Unchanged;
    }
    if !install && inner.value == "" {
      UnwrapNothing();
      line := line[..commandIndex] + line[commandIndex + 1..];
      if (|line| == 1 && line[0].key == TYPE) || |line| == 0 {
        return Changed(members[..index] + members[index + 1..]);
      }
      return Changed(members[index := members[index].(value := Object(line))]);
    }
    var after := if install then Wrap(executable, before) else inner.value;
    if commandIndex >= 0 {
      line := line[commandIndex := line[commandIndex].(value := Text(after))];
    } else {
      if IndexKey(line, TYPE) < 0 {
        line := line + [Member(TYPE, Text("command"))];
      }
      line := line + [Member(COMMAND, Text(after))];
    }
    if index >= 0 {
      return Changed(members[index := members[index].(value := Object(line))]);
    }
    return Changed(members + [Member(STATUS_LINE, Object(line))]);
  }

  lemma UnwrapNothing()
    ensures Unwrap("") == None
  {
  }

  /** The settings uninstalling gives back as they were: no statusLine yet; or a command to wrap, on one line; or a
      statusLine with other members than its type, the type among them, and no command. */
  predicate Restorable(members: seq<Member>) {
    var i := IndexKey(members, STATUS_LINE);
    i < 0 ||
    (members[i].value.Object? &&
     var line := members[i].value.members;
     var c := IndexKey(line, COMMAND);
     if c < 0 then IndexKey(line, TYPE) >= 0 && |line| > 1
     else line[c].value.Text? && line[c].value.text != "" && NEWLINE !in line[c].value.text)
  }

  lemma IndexAppend(members: seq<Member>, m: Member, key: string)
    ensures IndexKey(members + [m], key)
            == if IndexKey(members, key) >= 0 then IndexKey(members, key) else if m.key == key then |members| else -1
  {
    if members != [] {
      assert (members + [m])[1..] == members[1..] + [m];
      IndexAppend(members[1..], m, key);
    }
  }

  lemma IndexUpdate(members: seq<Member>, i: nat, v: Value, key: string)
    requires i < |members|
    ensures IndexKey(members[i := members[i].(value := v)], key) == IndexKey(members, key)
  {
    var more := members[i := members[i].(value := v)];
    assert forall k :: 0 <= k < |members| ==> more[k].key == members[k].key;
  }

  /** Installing and then uninstalling gives back the settings, members, order and all, exactly when they are
      Restorable. */
  lemma UninstallRestores(members: seq<Member>, executable: string)
    requires Base(executable) == "edc" && QUOTE !in executable
    requires Edited(members, executable, true).Changed?
    ensures Edited(Edited(members, executable, true).settings, executable, false) == Changed(members) <==>
              Restorable(members)
  {
    hide Unwrap, Wrap, Base, IndexKey, WithCommand, WithLine, WithoutCommand, COMMAND, TYPE, STATUS_LINE;
    var line := LineOf(members).value;
    var before := CommandOf(line).value;
    var wrapped := Wrap(executable, before);
    var line1 := WithCommand(line, wrapped);
    var members1 := WithLine(members, line1);
    Installed(members, line, wrapped);
    BaseNotEmpty(executable);
    if NEWLINE in before {
      LinesNotUndone(executable, before);
    } else {
      WrapUndone(executable, before);
      if before == "" {
        RemovedAgain(members, line, wrapped);
      } else {
        PutBack(members, line, wrapped, before);
      }
    }
  }

  /** The settings after an install hold the wrapper. */
  lemma Installed(members: seq<Member>, line: seq<Member>, wrapped: string)
    requires LineOf(members) == Some(line)
    ensures var line1 := WithCommand(line, wrapped);
            LineOf(WithLine(members, line1)) == Some(line1) && CommandOf(line1) == Some(wrapped)
  {
    var c, i := IndexKey(line, COMMAND), IndexKey(members, STATUS_LINE);
    var line1 := WithCommand(line, wrapped);
    if c >= 0 {
      IndexUpdate(line, c, Text(wrapped), COMMAND);
    } else {
      IndexAppend(line, Member(TYPE, Text("command")), COMMAND);
      IndexAppend(if IndexKey(line, TYPE) < 0 then line + [Member(TYPE, Text("command"))] else line,
                  Member(COMMAND, Text(wrapped)), COMMAND);
    }
    if i >= 0 {
      IndexUpdate(members, i, Object(line1), STATUS_LINE);
    } else {
      IndexAppend(members, Member(STATUS_LINE, Object(line1)), STATUS_LINE);
    }
  }

  /** A command that was there is put back where it was. */
  lemma PutBack(members: seq<Member>, line: seq<Member>, wrapped: string, before: string)
    requires LineOf(members) == Some(line) && CommandOf(line) == Some(before) && before != ""
    ensures var line1 := WithCommand(line, wrapped);
            WithLine(WithLine(members, line1), WithCommand(line1, before)) == members
  {
    var c, i := IndexKey(line, COMMAND), IndexKey(members, STATUS_LINE);
    var line1 := WithCommand(line, wrapped);
    IndexUpdate(line, c, Text(wrapped), COMMAND);
    IndexUpdate(members, i, Object(line1), STATUS_LINE);
    assert line[c].value == Text(before);
    assert WithCommand(line1, before) == line;
    assert members[i].value == Object(line);
  }

  /** A command that was not there, or was empty, is taken out again; what is left is what was there exactly when
      the statusLine was not there at all, or had its type and more. */
  lemma RemovedAgain(members: seq<Member>, line: seq<Member>, wrapped: string)
    requires LineOf(members) == Some(line) && CommandOf(line) == Some("")
    ensures var line1 := WithCommand(line, wrapped);
            WithoutCommand(WithLine(members, line1), line1) == members
            <==> IndexKey(members, STATUS_LINE) < 0
                 || (IndexKey(line, COMMAND) < 0 && IndexKey(line, TYPE) >= 0 && |line| > 1)
  {
    hide WithCommand, WithLine;
    var i := IndexKey(members, STATUS_LINE);
    var c1 := CommandIndexAfter(line, wrapped);
    if i >= 0 {
      RemovedFromLine(members, line, WithCommand(line, wrapped));
    } else {
      LineRemoved(members, wrapped);
    }
  }

  lemma LineRemoved(members: seq<Member>, wrapped: string)
    requires IndexKey(members, STATUS_LINE) < 0
    ensures var line1 := WithCommand([], wrapped);
            WithoutCommand(WithLine(members, line1), line1) == members
  {
    hide COMMAND, TYPE, STATUS_LINE, IndexKey, WithCommand, WithLine, Without;
    var line1 := WithCommand([], wrapped);
    NewLine(wrapped);
    LineAdded(members, line1);
  }

  /** The statusLine that an install makes where there is none. */
  lemma NewLine(wrapped: string)
    ensures var line1 := WithCommand([], wrapped);
            IndexKey(line1, COMMAND) == 1 && |Without(line1, 1)| == 1 && Without(line1, 1)[0].key == TYPE
  {
    hide COMMAND, TYPE, IndexKey;
    KeysDiffer();
    var m := Member(TYPE, Text("command"));
    IndexAppend([], m, COMMAND);
    assert [] + [m] == [m];
    IndexAppend([m], Member(COMMAND, Text(wrapped)), COMMAND);
  }

  lemma LineAdded(members: seq<Member>, line: seq<Member>)
    requires IndexKey(members, STATUS_LINE) < 0
    ensures IndexKey(WithLine(members, line), STATUS_LINE) == |members|
    ensures Without(WithLine(members, line), |members|) == members
  {
    hide IndexKey, STATUS_LINE;
    IndexAppend(members, Member(STATUS_LINE, Object(line)), STATUS_LINE);
  }

  lemma RemovedFromLine(members: seq<Member>, line: seq<Member>, line1: seq<Member>)
    requires IndexKey(members, STATUS_LINE) >= 0 && LineOf(members) == Some(line) && IndexKey(line1, COMMAND) >= 0
    ensures var rest := Without(line1, IndexKey(line1, COMMAND));
            WithoutCommand(WithLine(members, line1), line1) == members
            <==> rest == line && rest != [] && !(|rest| == 1 && rest[0].key == TYPE)
  {
    var i := IndexKey(members, STATUS_LINE);
    var rest := Without(line1, IndexKey(line1, COMMAND));
    IndexUpdate(members, i, Object(line1), STATUS_LINE);
    assert members[i].value == Object(line);
    var members1 := WithLine(members, line1);
    if rest == [] || (|rest| == 1 && rest[0].key == TYPE) {
      assert |WithoutCommand(members1, line1)| == |members| - 1;
    } else {
      var members2 := members[i := members[i].(value := Object(rest))];
      assert WithoutCommand(members1, line1) == members2;
      assert members2[i].value == Object(rest);
      if rest == line {
        assert members2 == members;
      }
    }
  }

  lemma CommandIndexAfter(line: seq<Member>, wrapped: string) returns (c: int)
    requires CommandOf(line) == Some("")
    ensures c == IndexKey(WithCommand(line, wrapped), COMMAND) >= 0
    ensures var rest := Without(WithCommand(line, wrapped), c);
            if IndexKey(line, COMMAND) >= 0 then |rest| == |line| - 1
            else if IndexKey(line, TYPE) >= 0 then rest == line
            else rest == line + [Member(TYPE, Text("command"))]
    ensures IndexKey(line, TYPE) >= 0 && |line| == 1 ==> line[0].key == TYPE
  {
    hide IndexKey, COMMAND, TYPE;
    c := IndexKey(WithCommand(line, wrapped), COMMAND);
    OnlyType(line);
    if IndexKey(line, COMMAND) >= 0 {
      IndexUpdate(line, IndexKey(line, COMMAND), Text(wrapped), COMMAND);
    } else {
      AppendedCommand(line, wrapped);
    }
  }

  lemma OnlyType(line: seq<Member>)
    ensures IndexKey(line, TYPE) >= 0 && |line| == 1 ==> line[0].key == TYPE
  {
  }

  lemma AppendedCommand(line: seq<Member>, wrapped: string)
    requires IndexKey(line, COMMAND) < 0
    ensures var base := if IndexKey(line, TYPE) < 0 then line + [Member(TYPE, Text("command"))] else line;
            var c := IndexKey(WithCommand(line, wrapped), COMMAND);
            c == |base| && Without(WithCommand(line, wrapped), c) == base
  {
    hide IndexKey, COMMAND, TYPE;
    KeysDiffer();
    var base := if IndexKey(line, TYPE) < 0 then line + [Member(TYPE, Text("command"))] else line;
    IndexAppend(line, Member(TYPE, Text("command")), COMMAND);
    IndexAppend(base, Member(COMMAND, Text(wrapped)), COMMAND);
    assert Without(base + [Member(COMMAND, Text(wrapped))], |base|) == base;
  }

  lemma KeysDiffer()
    ensures TYPE != COMMAND
  {
    assert |TYPE| != |COMMAND|;
  }
}

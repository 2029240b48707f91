/** The chat command parsers, and the instructions that approval notifications print for them. */
module Commands {
  import opened Domain
  import opened Text
  import Database
  import Handlers

  /** The command word of a text, and the other words. */
  function TextCommand(text: string): (string, seq<string>) {
    var fields := Fields(TrimSpace(text));
    if fields == [] then ("", []) else (TrimPrefix(ToLower(fields[0]), "/"), fields[1..])
  }

  /** parseCommand of the WeCom and DingTalk adapters: an explicit command, or the words of the text. */
  function ParseCommand(command: string, args: seq<string>, text: string): (string, seq<string>) {
    if command != "" then (TrimPrefix(ToLower(command), "/"), args) else TextCommand(text)
  }

  /**
   * An explicit command wins over the text and keeps its arguments; it is lower-cased, and one leading slash,
   * if there is one, is dropped.
   */
  lemma ExplicitCommandWins(command: string, args: seq<string>, text: string)
    requires command != ""
    ensures var (c, a) := ParseCommand(command, args, text);
            var from := if command[0] == '/' then 1 else 0;
            && a == args && |c| == |command| - from
            && forall i :: 0 <= i < |c| ==>
                 c[i] == if 'A' <= command[i + from] <= 'Z' then (command[i + from] as int + 32) as char
                         else command[i + from]
  {
    assert "/" <= ToLower(command) <==> ToLower(command)[0] == '/';
  }

  /** JSON decoding into a structure with one text field; None is a decoding error. */
  type Decoder = string -> Option<string>

  /** Command of the Feishu adapter: the decoded text, or the content itself. */
  function FeishuCommand(decode: Decoder, content: string): (string, seq<string>) {
    TextCommand(if decode(content).Some? then decode(content).value else content)
  }

  const APPROVE_LABEL := "批准："
  const REJECT_LABEL := "拒绝："

  /** The text an approval notification is sent as. */
  function ApprovalText(text: string, id: string): string {
    text + "\n批准：/approve " + id + " approved\n拒绝：/approve " + id + " rejected"
  }

  function Instruction(id: string, decision: string): string {
    "/approve " + id + " " + decision
  }

  lemma ApproveLine(id: string)
    ensures "\n批准：/approve " + id + " approved" == "\n" + APPROVE_LABEL + Instruction(id, "approved")
  {
    assert "\n批准：/approve " == "\n" + APPROVE_LABEL + "/approve ";
    assert " " + "approved" == " approved";
  }

  lemma RejectLine(id: string)
    ensures "\n拒绝：/approve " + id + " rejected" == "\n" + REJECT_LABEL + Instruction(id, "rejected")
  {
    assert "\n拒绝：/approve " == "\n" + REJECT_LABEL + "/approve ";
    assert " " + "rejected" == " rejected";
  }

  /** The notification is its own text, then two lines: a label and an instruction each. */
  lemma ApprovalTextLines(text: string, id: string)
    ensures ApprovalText(text, id) ==
            text + ("\n" + APPROVE_LABEL + Instruction(id, "approved"))
                 + ("\n" + REJECT_LABEL + Instruction(id, "rejected"))
  {
    var a, b, c, d := "\n批准：/approve ", " approved", "\n拒绝：/approve ", " rejected";
    assert " approved\n拒绝：/approve " == b + c;
    ApproveLine(id);
    RejectLine(id);
    Regroup(text, a, id, b, c, d);
  }

  lemma Regroup(text: string, a: string, id: string, b: string, c: string, d: string)
    ensures text + a + id + (b + c) + id + d == text + (a + id + b) + (c + id + d)
  {
    assert text + a + id + (b + c) == text + (a + id + b) + c;
  }

  lemma CommandOfFields(text: string, words: seq<string>)
    requires Fields(text) == words != []
    ensures TextCommand(text) == (TrimPrefix(ToLower(words[0]), "/"), words[1..])
  {
    FieldsOfTrimSpace(text);
  }

  lemma ApproveWord()
    ensures TrimPrefix(ToLower("/approve"), "/") == "approve"
  {
    assert ToLower("/approve") == "/approve";
    assert "/" <= "/approve" && "/approve"[1..] == "approve";
  }

  /** The text a message carries: decoded, or bare when the content is no JSON. */
  predicate Carries(decode: Decoder, content: string, text: string) {
    decode(content) == Some(text) || (decode(content).None? && content == text)
  }

  /**
   * An instruction parses back to its command, operation and decision, however the sender pads it or
   * repeats the whitespace between its words.
   */
  lemma InstructionRoundTrip(id: string, decision: string, gaps: seq<string>)
    requires IsWord(id) && decision in {"approved", "rejected"}
    requires IsLayout(["/approve", id, decision], gaps)
    ensures ParseCommand("", [], Layout(["/approve", id, decision], gaps)) == ("approve", [id, decision])
    ensures forall decode: Decoder, content :: Carries(decode, content, Layout(["/approve", id, decision], gaps)) ==>
              FeishuCommand(decode, content) == ("approve", [id, decision])
  {
    var words := ["/approve", id, decision];
    FieldsOfLayout(words, gaps);
    CommandOfFields(Layout(words, gaps), words);
    ApproveWord();
    assert words[1..] == [id, decision];
  }

  lemma LayoutOfThree(a: string, b: string, c: string, before: string)
    ensures Layout([a, b, c], [before, " ", " ", ""]) == before + (a + " " + b + " " + c)
  {
    var words, gaps := [a, b, c], [before, " ", " ", ""];
    assert words[1..][1..] == [c] && gaps[1..][1..] == [" ", ""];
    assert [c][1..] == [] && [" ", ""][1..] == [""];
    assert Layout([c], [" ", ""]) == " " + c;
    assert Layout(words[1..], gaps[1..]) == " " + b + (" " + c);
  }

  /** Printed after whitespace, the instruction parses back. */
  lemma PrintedInstructionRoundTrip(before: string, id: string, decision: string)
    requires Blank(before) && IsWord(id) && decision in {"approved", "rejected"}
    ensures ParseCommand("", [], before + Instruction(id, decision)) == ("approve", [id, decision])
  {
    DecisionsAreWords();
    LayoutOfThree("/approve", id, decision, before);
    assert "/approve " == "/approve" + " ";
    assert "/approve" + " " + id + " " + decision == Instruction(id, decision);
    InstructionRoundTrip(id, decision, [before, " ", " ", ""]);
  }

  /**
   * A line that ends in the instruction is the command exactly when only whitespace precedes it.  So the
   * whole line of the notification, label included, is not a command.
   */
  lemma OnlyWhitespaceMayPrecede(before: string, id: string, decision: string)
    requires IsWord(id) && decision in {"approved", "rejected"}
    ensures ParseCommand("", [], before + Instruction(id, decision)) == ("approve", [id, decision]) <==> Blank(before)
  {
    var line := before + Instruction(id, decision);
    if Blank(before) {
      PrintedInstructionRoundTrip(before, id, decision);
    } else if ParseCommand("", [], line) == ("approve", [id, decision]) {
      FieldsOfTrimSpace(line);
      var fields := Fields(line);
      LongCommandWord(fields[0]);
      InkOfInstruction(id, decision);
      InkAppends(before, Instruction(id, decision));
      InkOfBlank(before);
      InkIsFields(line);
      assert fields == [fields[0], id, decision];
      LengthOfThree(fields[0], id, decision);
      assert false;
    }
  }

  lemma LongCommandWord(word: string)
    requires TrimPrefix(ToLower(word), "/") == "approve"
    ensures |word| <= |"/approve"|
  {
  }

  lemma InkOfInstruction(id: string, decision: string)
    requires IsWord(id) && decision in {"approved", "rejected"}
    ensures Ink(Instruction(id, decision)) == |"/approve"| + |id| + |decision|
  {
    DecisionsAreWords();
    InkOfWord("/approve");
    InkOfWord(id);
    InkOfWord(decision);
    InkAppends("/approve", " ");
    assert "/approve" + " " == "/approve ";
    InkAppends("/approve ", id);
    InkAppends("/approve " + id, " ");
    InkAppends("/approve " + id + " ", decision);
    assert Ink(" ") == 0;
  }

  lemma LengthOfThree(a: string, b: string, c: string)
    ensures TotalLength([a, b, c]) == |a| + |b| + |c|
  {
    assert [a, b, c][1..] == [b, c] && [b, c][1..] == [c] && [c][1..] == [];
    assert TotalLength([c]) == |c|;
    assert TotalLength([b, c]) == |b| + |c|;
  }

  /** So neither line of the notification, pasted whole, is the command it shows. */
  lemma PastedLinesAreNotCommands(id: string)
    requires IsWord(id)
    ensures ParseCommand("", [], APPROVE_LABEL + Instruction(id, "approved")) != ("approve", [id, "approved"])
    ensures ParseCommand("", [], REJECT_LABEL + Instruction(id, "rejected")) != ("approve", [id, "rejected"])
  {
    assert !IsSpace(APPROVE_LABEL[0]) && !IsSpace(REJECT_LABEL[0]);
    OnlyWhitespaceMayPrecede(APPROVE_LABEL, id, "approved");
    OnlyWhitespaceMayPrecede(REJECT_LABEL, id, "rejected");
  }

  lemma DecisionsAreWords()
    ensures IsWord("/approve") && IsWord("approved") && IsWord("rejected")
  {
  }

  lemma ApproveCommandDecides(db: Database.Db, parse: Handlers.Parsers, provider: Provider, p: Handlers.Payload,
                              user: Id, permissions: seq<Permission>, logged: bool)
    requires p.command == "approve" && |p.arguments| == 2 && p.arguments[1] in {"approved", "rejected"}
    ensures Handlers.CommandTxn(db, parse, provider, p, user, permissions, logged)
            == Handlers.DecisionTxn(db, permissions, Some(user), parse.id(p.arguments[0]), p.arguments[1], "")
  {
  }

  /** Sending the instruction back makes the decision it prints, for whoever may approve. */
  lemma InstructionDecides(db: Database.Db, parse: Handlers.Parsers, provider: Provider, p: Handlers.Payload,
                           user: Id, permissions: seq<Permission>, logged: bool, id: string, decision: string)
    requires IsWord(id) && decision in {"approved", "rejected"}
    requires (p.command, p.arguments) == ParseCommand("", [], Instruction(id, decision))
    ensures Handlers.CommandTxn(db, parse, provider, p, user, permissions, logged)
            == Handlers.DecisionTxn(db, permissions, Some(user), parse.id(id), decision, "")
  {
    PrintedInstructionRoundTrip("", id, decision);
    assert "" + Instruction(id, decision) == Instruction(id, decision);
    ApproveCommandDecides(db, parse, provider, p, user, permissions, logged);
  }

  // ---------- where the three parsers agree ----------

  /** Characters that stand for themselves inside a JSON string. */
  predicate Literal(text: string) {
    forall i :: 0 <= i < |text| ==> text[i] != '"' && text[i] != '\\' && text[i] >= ' '
  }

  function Encoded(text: string): string {
    "{\"text\":\"" + text + "\"}"
  }

  /**
   * What every JSON decoder does: `null` leaves the text empty, a literal text comes back, and a text that
   * decodes is written with at least two characters more than it shows, spaces not counted.
   */
  ghost predicate Lawful(decode: Decoder) {
    && decode("null") == Some("")
    && (forall text :: Literal(text) ==> decode(Encoded(text)) == Some(text))
    && (forall content :: decode(content).Some? ==> Ink(decode(content).value) + 2 <= Ink(content))
  }

  /** The command and its arguments hold every character that is no space, but for one slash. */
  lemma CommandSize(text: string)
    ensures var (command, arguments) := TextCommand(text);
            |command| + TotalLength(arguments) <= Ink(text) <= |command| + TotalLength(arguments) + 1
  {
    FieldsOfTrimSpace(text);
    InkIsFields(text);
  }

  /** The Feishu parser reads a text as the other two do exactly when it does not decode as JSON. */
  lemma ParsersAgreeIff(decode: Decoder, content: string)
    requires Lawful(decode)
    ensures FeishuCommand(decode, content) == ParseCommand("", [], content) <==> decode(content).None?
  {
    CommandSize(content);
    if decode(content).Some? {
      CommandSize(decode(content).value);
    }
  }

  /** `null` is such a text: a command for two parsers and no command for the third. */
  lemma ParsersDifferOnNull(decode: Decoder)
    requires Lawful(decode)
    ensures ParseCommand("", [], "null") == ("null", [])
    ensures FeishuCommand(decode, "null") == ("", [])
  {
    FieldsTakeWord("null", "");
    assert "null" + "" == "null";
    CommandOfFields("null", ["null"]);
    assert ToLower("null") == "null";
    FieldsOfTrimSpace("");
  }

  /** A decoder of `null` and of objects with one literal text. */
  function SmallDecoder(content: string): Option<string> {
    var open, close := "{\"text\":\"", "\"}";
    var n := |content|;
    if content == "null" then Some("")
    else if |open| + |close| <= n && content[..|open|] == open && content[n - |close|..] == close
            && Literal(content[|open|..n - |close|]) then Some(content[|open|..n - |close|])
    else None
  }

  lemma SmallDecoderReadsLiterals(text: string)
    requires Literal(text)
    ensures SmallDecoder(Encoded(text)) == Some(text)
  {
    var open, close := "{\"text\":\"", "\"}";
    assert Encoded(text) == open + text + close;
    assert Encoded(text)[..|open|] == open;
    assert Encoded(text)[|open|..|Encoded(text)| - |close|] == text;
    assert Encoded(text)[0] == '{';
  }

  lemma EncodingInk(text: string)
    ensures Ink(Encoded(text)) >= Ink(text) + 2
  {
    var open, close := "{\"text\":\"", "\"}";
    assert |open| == 9;
    InkOfWord(open);
    InkAppends(open, text);
    InkAppends(open + text, close);
    InkOfWord(close);
  }

  lemma SmallDecoderIsLawful()
    ensures Lawful(SmallDecoder)
  {
    InkOfWord("null");
    forall text | Literal(text) ensures SmallDecoder(Encoded(text)) == Some(text) {
      SmallDecoderReadsLiterals(text);
    }
    forall content | SmallDecoder(content).Some? ensures Ink(SmallDecoder(content).value) + 2 <= Ink(content) {
      if content != "null" {
        EncodingInk(SmallDecoder(content).value);
        DecodedIsEncoded(content);
      }
    }
  }

  lemma DecodedIsEncoded(content: string)
    requires content != "null" && SmallDecoder(content).Some?
    ensures content == Encoded(SmallDecoder(content).value)
  {
    var open, close := "{\"text\":\"", "\"}";
    assert content == open + SmallDecoder(content).value + close;
  }
}

/**
 * The transcript parsers of the conversation evaluation: each line of a call or chat
 * transcript is classified as the assistant's or the user's by its speaker label, and
 * its text after the label is stored, stripped, under that role. Reading the file is
 * left out: the parsers take its lines.
 */
module ConversationParsers {
  import opened Wrappers
  import opened Strings

  datatype Key = AssistantKey | UserKey

  /** The two lists the parsers return; both keys are always present. */
  datatype Parsed = Parsed(assistant: seq<string>, user: seq<string>)

  /** A line's classification: its role and the stored text, or `None` when it is skipped. */
  type Classifier = string -> Option<(Key, string)>

  /** The texts of the lines a classifier assigns to `key`, in line order. */
  function Selected(contents: seq<string>, classify: Classifier, key: Key): seq<string>
    decreases |contents|
  {
    if contents == [] then []
    else
      var init := Selected(contents[..|contents| - 1], classify, key);
      match classify(contents[|contents| - 1])
      case Some(c) => if c.0 == key then init + [c.1] else init
      case None => init
  }

  /** At most one text is stored per line. */
  lemma {:induction false} SelectedBound(contents: seq<string>, classify: Classifier)
    ensures |Selected(contents, classify, AssistantKey)| + |Selected(contents, classify, UserKey)| <= |contents|
    decreases |contents|
  {
    if contents != [] {
      SelectedBound(contents[..|contents| - 1], classify);
    }
  }

  /** The lists of a longer transcript extend those of its prefix, so each list follows line order. */
  lemma {:induction false} SelectedPrefix(contents: seq<string>, n: nat, classify: Classifier, key: Key)
    requires n <= |contents|
    ensures var whole := Selected(contents, classify, key);
      var prefix := Selected(contents[..n], classify, key);
      |prefix| <= |whole| && whole[..|prefix|] == prefix
    decreases |contents| - n
  {
    if n < |contents| {
      var init := contents[..|contents| - 1];
      SelectedPrefix(init, n, classify, key);
      assert init[..n] == contents[..n];
    } else {
      assert contents[..n] == contents;
    }
  }

  /** The text a line's classification adds to the list of `key`. */
  function Added(c: Option<(Key, string)>, key: Key): seq<string> {
    match c
    case Some(c) => if c.0 == key then [c.1] else []
    case None => []
  }

  /** One more line adds its classification to both lists. */
  lemma SelectedStep(contents: seq<string>, i: nat, classify: Classifier)
    requires i < |contents|
    ensures Selected(contents[..i + 1], classify, AssistantKey) == Selected(contents[..i], classify, AssistantKey) + Added(classify(contents[i]), AssistantKey)
    ensures Selected(contents[..i + 1], classify, UserKey) == Selected(contents[..i], classify, UserKey) + Added(classify(contents[i]), UserKey)
  {
    assert contents[..i + 1][..i] == contents[..i];
  }

  // ---------------------------------------------------------------------------
  // CallParser
  // ---------------------------------------------------------------------------

  const CallAssistant: string := "Agent"
  const CallUser: string := "Human"
  const CallSeparator: string := ": "

  /** A call line: the label before the first `": "` names the role by its ending. */
  function CallLine(content: string): (r: Option<(Key, string)>)
    ensures FindFrom(content, CallSeparator, 0).None? ==> r.None?
    ensures FindFrom(content, CallSeparator, 0).Some? ==>
      var i := FindFrom(content, CallSeparator, 0).value;
      r == if EndsWith(content[..i], CallAssistant) then Some((AssistantKey, Strip(content[i + 2..])))
           else if EndsWith(content[..i], CallUser) then Some((UserKey, Strip(content[i + 2..])))
           else None
  {
    var splitedContents := SplitOnce(content, CallSeparator);
    var info := if |splitedContents| == 2 then splitedContents[0] else "";
    var splitedContent := if |splitedContents| == 2 then splitedContents[1] else content;
    if EndsWith(info, CallAssistant) then Some((AssistantKey, Strip(splitedContent)))
    else if EndsWith(info, CallUser) then Some((UserKey, Strip(splitedContent)))
    else None
  }

  /** `CallParser.parse` over the file's lines. */
  method CallParserParse(contents: seq<string>) returns (mpMessages: Parsed)
    ensures mpMessages == Parsed(Selected(contents, CallLine, AssistantKey), Selected(contents, CallLine, UserKey))
  {
    mpMessages := Parsed([], []);
    var i := 0;
    while i < |contents|
      invariant 0 <= i <= |contents|
      invariant mpMessages == Parsed(Selected(contents[..i], CallLine, AssistantKey), Selected(contents[..i], CallLine, UserKey))
    {
      var content := contents[i];
      SelectedStep(contents, i, CallLine);
      i := i + 1;
      var splitedContents := SplitOnce(content, CallSeparator);
      var info := "";
      var splitedContent := content;
      if |splitedContents| == 2 {
        info, splitedContent := splitedContents[0], splitedContents[1];
      }
      assert CallLine(content) == if EndsWith(info, CallAssistant) then Some((AssistantKey, Strip(splitedContent)))
        else if EndsWith(info, CallUser) then Some((UserKey, Strip(splitedContent))) else None;
      if EndsWith(info, CallAssistant) {
        mpMessages := mpMessages.(assistant := mpMessages.assistant + [Strip(splitedContent)]);
      } else if EndsWith(info, CallUser) {
        mpMessages := mpMessages.(user := mpMessages.user + [Strip(splitedContent)]);
      } else {
        continue;
      }
    }
    assert contents[..i] == contents;
  }

  // ---------------------------------------------------------------------------
  // ChatParser
  // ---------------------------------------------------------------------------

  const ChatAssistant: string := "Assistant:"
  const ChatUser: string := "User:"
  const ChatSeparator: string := ":"

  /** When the line starts with a label ending in its only `":"`, that colon is the first one. */
  lemma FirstColon(content: string, tag: string)
    requires |tag| > 0 && tag[|tag| - 1] == ':' && StartsWith(content, tag)
    requires forall k :: 0 <= k < |tag| - 1 ==> tag[k] != ':'
    ensures FindFrom(content, ChatSeparator, 0) == Some(|tag| - 1)
  {
    assert OccursAt(content, ChatSeparator, |tag| - 1) by {
      assert content[|tag| - 1] == tag[|tag| - 1];
    }
    var r := FindFrom(content, ChatSeparator, 0);
    assert r.Some? && r.value <= |tag| - 1;
    assert content[r.value..r.value + 1] == ":";
    assert content[r.value] == ':';
    assert content[r.value] == tag[r.value];
  }

  /** A chat line: its label prefix names the role, its text follows the first `":"`. */
  function ChatLine(content: string): (r: Option<(Key, string)>)
    ensures StartsWith(content, ChatAssistant) ==> r == Some((AssistantKey, Strip(content[|ChatAssistant|..])))
    ensures !StartsWith(content, ChatAssistant) && StartsWith(content, ChatUser) ==> r == Some((UserKey, Strip(content[|ChatUser|..])))
    ensures !StartsWith(content, ChatAssistant) && !StartsWith(content, ChatUser) ==> r.None?
  {
    if StartsWith(content, ChatAssistant) then
      FirstColon(content, ChatAssistant);
      var splits := SplitOnce(content, ChatSeparator);
      Some((AssistantKey, Strip(splits[1])))
    else if StartsWith(content, ChatUser) then
      FirstColon(content, ChatUser);
      var splits := SplitOnce(content, ChatSeparator);
      Some((UserKey, Strip(splits[1])))
    else None
  }

  /** A labelled chat line splits in two at its first colon, and its text is the stripped second half. */
  lemma ChatLineSplits(content: string, key: Key)
    requires key == AssistantKey <==> StartsWith(content, ChatAssistant)
    requires key == UserKey ==> StartsWith(content, ChatUser)
    ensures |SplitOnce(content, ChatSeparator)| == 2
    ensures ChatLine(content) == Some((key, Strip(SplitOnce(content, ChatSeparator)[1])))
  {
    if key == AssistantKey {
      FirstColon(content, ChatAssistant);
    } else {
      FirstColon(content, ChatUser);
    }
  }

  /** `ChatParser.parse` over the file's lines. */
  method ChatParserParse(contents: seq<string>) returns (mpMessages: Parsed)
    ensures mpMessages == Parsed(Selected(contents, ChatLine, AssistantKey), Selected(contents, ChatLine, UserKey))
  {
    mpMessages := Parsed([], []);
    var i := 0;
    while i < |contents|
      invariant 0 <= i <= |contents|
      invariant mpMessages == Parsed(Selected(contents[..i], ChatLine, AssistantKey), Selected(contents[..i], ChatLine, UserKey))
    {
      var content := contents[i];
      SelectedStep(contents, i, ChatLine);
      i := i + 1;
      var key: Key;
      if StartsWith(content, ChatAssistant) {
        key := AssistantKey;
      } else if StartsWith(content, ChatUser) {
        key := UserKey;
      } else {
        continue;
      }
      ChatLineSplits(content, key);
      var splits := SplitOnce(content, ChatSeparator);
      var splitedContent := splits[1];
      if key == AssistantKey {
        mpMessages := mpMessages.(assistant := mpMessages.assistant + [Strip(splitedContent)]);
      } else {
        mpMessages := mpMessages.(user := mpMessages.user + [Strip(splitedContent)]);
      }
    }
    assert contents[..i] == contents;
  }
}

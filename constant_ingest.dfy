/**
 * The constant ingestor of the conversation evaluation: every constant of a YAML rule
 * book becomes one document chunk, whose page index is the constant's 1-based position
 * within its rule and whose rendered page path is the rule's name. Reading and parsing
 * the file are left out: the ingestor takes the parsed document, the file's name, and
 * the identifier drawn for each chunk.
 */
module ConstantIngest {
  import opened Wrappers
  import opened Strings
  import opened Document
  import Seqs

  /** A value `yaml.safe_load` produces; mappings keep their entries in file order. */
  datatype YamlValue =
    | YNull
    | YBool(b: bool)
    | YInt(i: int)
    | YStr(s: string)
    | YList(items: seq<YamlValue>)
    | YMap(entries: seq<(YamlValue, YamlValue)>)

  /** `repr` of a value: the display Python prints for it inside a container. */
  function Repr(v: YamlValue): string
    decreases v
  {
    match v
    case YNull => "None"
    case YBool(b) => if b then "True" else "False"
    case YInt(i) => IntToString(i)
    case YStr(s) => PyRepr(s)
    case YList(items) =>
      "[" + Join(seq(|items|, k requires 0 <= k < |items| => Repr(items[k])), ", ") + "]"
    case YMap(entries) =>
      "{" + Join(seq(|entries|, k requires 0 <= k < |entries| => Repr(entries[k].0) + ": " + Repr(entries[k].1)), ", ") + "}"
  }

  /** `str` of a value: a string is itself, anything else its `repr`. */
  function Str(v: YamlValue): (r: string)
    ensures v.YStr? ==> r == v.s
    ensures v.YList? ==> |r| >= 2 && r[0] == '[' && r[|r| - 1] == ']'
    ensures v.YMap? ==> |r| >= 2 && r[0] == '{' && r[|r| - 1] == '}'
  {
    if v.YStr? then v.s else Repr(v)
  }

  /** The name of a value's Python type, as an `AttributeError` message quotes it. */
  function TypeName(v: YamlValue): string {
    match v
    case YNull => "NoneType"
    case YBool(_) => "bool"
    case YInt(_) => "int"
    case YStr(_) => "str"
    case YList(_) => "list"
    case YMap(_) => "dict"
  }

  /** A rule's constants: a list is its items, any other value a single constant. */
  function RuleConstants(v: YamlValue): (r: seq<YamlValue>)
    ensures v.YList? ==> r == v.items
    ensures !v.YList? ==> |r| == 1 && r[0] == v
  {
    if v.YList? then v.items else [v]
  }

  /** The number of chunks a list of rules produces: the sum of their constants' counts. */
  function Count(rules: seq<(YamlValue, YamlValue)>): nat
    decreases |rules|
  {
    if rules == [] then 0
    else Count(rules[..|rules| - 1]) + |RuleConstants(rules[|rules| - 1].1)|
  }

  /** The chunks of one rule, named `name`, whose first chunk is the `start`-th of the file. */
  function RuleChunks(filename: string, name: string, constants: seq<YamlValue>, uuid: nat -> Uuid, start: nat): seq<Chunk> {
    seq(|constants|, j requires 0 <= j < |constants| =>
      Chunk(uuid(start + j), Str(constants[j]), DocumentMetadata(filename, j + 1, name)))
  }

  /** A rule with constants needs a string name: the metadata's `rendered_page_path` is a string field. */
  predicate Rejected(rule: (YamlValue, YamlValue)) {
    !rule.0.YStr? && |RuleConstants(rule.1)| > 0
  }

  const PathMessage: string := "rendered_page_path: Input should be a valid string"
  const PathError: Error := ValueError(PathMessage)

  /** The page path a rule's chunks carry: its name, when that is a string. */
  function RuleName(rule: (YamlValue, YamlValue)): string {
    if rule.0.YStr? then rule.0.s else ""
  }

  /** The chunks so far extended by one rule's chunks, which start at position `start`. */
  function AddRule(acc: Result<seq<Chunk>>, filename: string, rule: (YamlValue, YamlValue), uuid: nat -> Uuid, start: nat): (r: Result<seq<Chunk>>)
    ensures r.Ok? ==> acc.Ok? && |r.value| == |acc.value| + |RuleConstants(rule.1)|
    ensures r.Err? ==> r == acc || r == Err(PathError)
  {
    if acc.Err? then acc
    else if Rejected(rule) then Err(PathError)
    else Ok(acc.value + RuleChunks(filename, RuleName(rule), RuleConstants(rule.1), uuid, start))
  }

  /** The chunks of a rule book's entries, rule after rule, or the validation error of the first rejected rule. */
  function Ingested(filename: string, rules: seq<(YamlValue, YamlValue)>, uuid: nat -> Uuid): (r: Result<seq<Chunk>>)
    ensures r.Ok? ==> |r.value| == Count(rules)
    ensures r.Err? ==> r.error == PathError
    decreases |rules|
  {
    if rules == [] then Ok([])
    else
      var init := rules[..|rules| - 1];
      AddRule(Ingested(filename, init, uuid), filename, rules[|rules| - 1], uuid, Count(init))
  }

  /** Ingestion fails exactly when some rule with constants has a name that is not a string. */
  lemma {:induction false} IngestedFails(filename: string, rules: seq<(YamlValue, YamlValue)>, uuid: nat -> Uuid)
    ensures Ingested(filename, rules, uuid).Err? <==> exists i :: 0 <= i < |rules| && Rejected(rules[i])
    decreases |rules|
  {
    if rules != [] {
      var init := rules[..|rules| - 1];
      IngestedFails(filename, init, uuid);
      if exists i :: 0 <= i < |init| && Rejected(init[i]) {
        var i :| 0 <= i < |init| && Rejected(init[i]);
        assert rules[i] == init[i];
      }
      if exists i :: 0 <= i < |rules| && Rejected(rules[i]) {
        var i :| 0 <= i < |rules| && Rejected(rules[i]);
        if i < |init| {
          assert init[i] == rules[i];
        }
      }
    }
  }

  /** The chunks of a prefix of the rules are a prefix of the chunks of all of them. */
  lemma {:induction false} IngestedPrefix(filename: string, rules: seq<(YamlValue, YamlValue)>, n: nat, uuid: nat -> Uuid)
    requires n <= |rules| && Ingested(filename, rules, uuid).Ok?
    ensures Ingested(filename, rules[..n], uuid).Ok?
    ensures var whole := Ingested(filename, rules, uuid).value;
      var part := Ingested(filename, rules[..n], uuid).value;
      |part| <= |whole| && whole[..|part|] == part
    decreases |rules| - n
  {
    if n == |rules| {
      assert rules[..n] == rules;
    } else {
      var init := rules[..|rules| - 1];
      assert init[..n] == rules[..n];
      var rule := rules[|rules| - 1];
      assert Ingested(filename, init, uuid).Ok?;
      assert Ingested(filename, rules, uuid).value
          == Ingested(filename, init, uuid).value + RuleChunks(filename, RuleName(rule), RuleConstants(rule.1), uuid, Count(init));
      IngestedPrefix(filename, init, n, uuid);
    }
  }

  /**
   * The `j`-th constant of rule `i` is the chunk at position `Count(rules[..i]) + j`: its
   * identifier is that position's, its text the constant's `str`, its page index `j + 1`,
   * its rendered page path the rule's name, and its source a document.
   */
  lemma {:induction false} IngestedAt(filename: string, rules: seq<(YamlValue, YamlValue)>, uuid: nat -> Uuid, i: nat, j: nat)
    requires Ingested(filename, rules, uuid).Ok?
    requires i < |rules| && j < |RuleConstants(rules[i].1)|
    ensures rules[i].0.YStr?
    ensures var p := Count(rules[..i]) + j;
      && p < Count(rules)
      && Ingested(filename, rules, uuid).value[p]
         == Chunk(uuid(p), Str(RuleConstants(rules[i].1)[j]), DocumentMetadata(filename, j + 1, rules[i].0.s))
    decreases |rules|
  {
    if i == |rules| - 1 {
      LastChunkAt(filename, rules, uuid, j);
      var rule := rules[i];
      RuleChunkAt(filename, RuleName(rule), RuleConstants(rule.1), uuid, Count(rules[..i]), j);
    } else {
      var init := rules[..|rules| - 1];
      assert init[..i] == rules[..i] && init[i] == rules[i];
      EarlierKept(filename, rules, uuid, Count(rules[..i]) + j);
      IngestedAt(filename, init, uuid, i, j);
    }
  }

  /** The `j`-th constant of the last rule, located in the chunks of all rules. */
  lemma LastChunkAt(filename: string, rules: seq<(YamlValue, YamlValue)>, uuid: nat -> Uuid, j: nat)
    requires rules != [] && Ingested(filename, rules, uuid).Ok?
    requires j < |RuleConstants(rules[|rules| - 1].1)|
    ensures rules[|rules| - 1].0.YStr?
    ensures var init := rules[..|rules| - 1];
      var rule := rules[|rules| - 1];
      var p := Count(init) + j;
      && p < Count(rules)
      && Ingested(filename, rules, uuid).value[p] == RuleChunks(filename, RuleName(rule), RuleConstants(rule.1), uuid, Count(init))[j]
  {
    var init := rules[..|rules| - 1];
    var rule := rules[|rules| - 1];
    LastRule(filename, rules, uuid);
    var prev := Ingested(filename, init, uuid).value;
    var own := RuleChunks(filename, RuleName(rule), RuleConstants(rule.1), uuid, Count(init));
    Seqs.AppendAt(prev, own, j);
  }

  /** The chunks of all rules are those of all but the last, then the last rule's own. */
  lemma LastRule(filename: string, rules: seq<(YamlValue, YamlValue)>, uuid: nat -> Uuid)
    requires rules != [] && Ingested(filename, rules, uuid).Ok?
    ensures !Rejected(rules[|rules| - 1])
    ensures Ingested(filename, rules[..|rules| - 1], uuid).Ok?
    ensures Count(rules) == Count(rules[..|rules| - 1]) + |RuleConstants(rules[|rules| - 1].1)|
    ensures var init := rules[..|rules| - 1];
      var rule := rules[|rules| - 1];
      |Ingested(filename, init, uuid).value| == Count(init)
      && Ingested(filename, rules, uuid).value
         == Ingested(filename, init, uuid).value + RuleChunks(filename, RuleName(rule), RuleConstants(rule.1), uuid, Count(init))
  {
  }

  /** The chunks of all rules but the last stay in place in the chunks of all rules. */
  lemma EarlierKept(filename: string, rules: seq<(YamlValue, YamlValue)>, uuid: nat -> Uuid, p: nat)
    requires rules != [] && Ingested(filename, rules, uuid).Ok?
    ensures Ingested(filename, rules[..|rules| - 1], uuid).Ok?
    ensures p < |Ingested(filename, rules[..|rules| - 1], uuid).value| ==>
      p < |Ingested(filename, rules, uuid).value|
      && Ingested(filename, rules, uuid).value[p] == Ingested(filename, rules[..|rules| - 1], uuid).value[p]
  {
    var init := rules[..|rules| - 1];
    var rule := rules[|rules| - 1];
    var prev := Ingested(filename, init, uuid).value;
    var own := RuleChunks(filename, RuleName(rule), RuleConstants(rule.1), uuid, Count(init));
    assert Ingested(filename, rules, uuid).value == prev + own;
  }

  lemma RuleChunkAt(filename: string, name: string, constants: seq<YamlValue>, uuid: nat -> Uuid, start: nat, j: nat)
    requires j < |constants|
    ensures RuleChunks(filename, name, constants, uuid, start)[j] == Chunk(uuid(start + j), Str(constants[j]), DocumentMetadata(filename, j + 1, name))
  {
  }

  /** A prefix of the rules counts no more chunks than all of them. */
  lemma {:induction false} CountPrefix(rules: seq<(YamlValue, YamlValue)>, n: nat)
    requires n <= |rules|
    ensures Count(rules[..n]) <= Count(rules)
    decreases |rules| - n
  {
    if n == |rules| {
      assert rules[..n] == rules;
    } else {
      var init := rules[..|rules| - 1];
      assert init[..n] == rules[..n];
      CountPrefix(init, n);
    }
  }

  /** A rule book of string-named rules yields one chunk per constant. */
  lemma StringNamesIngest(filename: string, rules: seq<(YamlValue, YamlValue)>, uuid: nat -> Uuid)
    requires forall i :: 0 <= i < |rules| ==> rules[i].0.YStr?
    ensures Ingested(filename, rules, uuid).Ok?
  {
    IngestedFails(filename, rules, uuid);
  }

  /** One more rule: the chunks of `rules[..i + 1]` from those of `rules[..i]`. */
  lemma IngestedStep(filename: string, rules: seq<(YamlValue, YamlValue)>, i: nat, uuid: nat -> Uuid)
    requires i < |rules|
    ensures Ingested(filename, rules[..i + 1], uuid) == AddRule(Ingested(filename, rules[..i], uuid), filename, rules[i], uuid, Count(rules[..i]))
  {
    assert rules[..i + 1][..i] == rules[..i];
    assert rules[..i + 1][i] == rules[i];
  }

  /** The tail of the `AttributeError` message for a document without `items`. */
  const NoItems: string := "' object has no attribute 'items'"

  /**
   * `ConstantIngestor.ingest` on the parsed document: a document that is not a mapping
   * has no `items`; otherwise the chunks are extended rule by rule.
   */
  method Ingest(filename: string, rulebooks: YamlValue, uuid: nat -> Uuid) returns (r: Result<seq<Chunk>>)
    ensures !rulebooks.YMap? ==> r == Err(AttributeError("'" + TypeName(rulebooks) + NoItems))
    ensures rulebooks.YMap? ==> r == Ingested(filename, rulebooks.entries, uuid)
  {
    if !rulebooks.YMap? {
      return Err(AttributeError("'" + TypeName(rulebooks) + NoItems));
    }
    var rules := rulebooks.entries;
    var chunks: seq<Chunk> := [];
    var i := 0;
    while i < |rules|
      invariant 0 <= i <= |rules|
      invariant Ingested(filename, rules[..i], uuid) == Ok(chunks)
      invariant |chunks| == Count(rules[..i])
    {
      var (ruleName, ruleConstant) := rules[i];
      IngestedStep(filename, rules, i, uuid);
      var ruleConstants := if ruleConstant.YList? then ruleConstant.items else [ruleConstant];
      if |ruleConstants| > 0 && !ruleName.YStr? {
        IngestedFails(filename, rules, uuid);
        assert Rejected(rules[i]);
        return Err(PathError);
      }
      var name := if ruleName.YStr? then ruleName.s else "";
      assert name == RuleName(rules[i]) && ruleConstants == RuleConstants(rules[i].1);
      chunks := chunks + RuleChunks(filename, name, ruleConstants, uuid, |chunks|);
      i := i + 1;
    }
    assert rules[..i] == rules;
    r := Ok(chunks);
  }
}

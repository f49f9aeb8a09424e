/**
 Partition keys: the orchestrator and the command coordinator each resolve an actor's partition expression on a message,
 each with its own tokeniser, field lookup and way of joining.
 */
module Partitions {
  import opened Wrappers

  /** A JSON value as far as the lookups tell values apart; a number is given by its decimal text. */
  datatype Json = Text(text: string) | Integer(digits: string) | Flag(on: bool) | Other

  /** `payload` and `raw` are None unless they are JSON objects. */
  datatype Envelope = Envelope(id: string, kind: string, platform: string, bot: string, conversation: string,
                               correlation: string, causation: string, headers: map<string, string>,
                               payload: Option<map<string, Json>>, raw: Option<map<string, Json>>)

  // ----- field lookups -----

  /** The fields that every envelope has. */
  const ENVELOPE_FIELDS: set<string> := {
    "id", "type", "source_platform", "source_bot", "conversation_id", "correlation_id", "causation_id"}

  function EnvelopeField(m: Envelope, field: string): string
    requires field in ENVELOPE_FIELDS
  {
    if field == "id" then m.id
    else if field == "type" then m.kind
    else if field == "source_platform" then m.platform
    else if field == "source_bot" then m.bot
    else if field == "conversation_id" then m.conversation
    else if field == "correlation_id" then m.correlation
    else m.causation
  }

  /** `pipeline_json_scalar_to_string`. */
  function Scalar(value: Json): string {
    match value
    case Text(text) => text
    case Integer(digits) => digits
    case Flag(on) => if on then "true" else "false"
    case Other => ""
  }

  /** The values that the coordinator renders; it looks on when it meets another one. */
  predicate Plain(value: Json) {
    value.Text? || value.Integer?
  }

  predicate Has(json: Option<map<string, Json>>, field: string) {
    json.Some? && field in json.value
  }

  predicate HasPlain(json: Option<map<string, Json>>, field: string) {
    Has(json, field) && Plain(json.value[field])
  }

  function OrchestratorField(m: Envelope, field: string): string {
    if field in ENVELOPE_FIELDS then EnvelopeField(m, field)
    else if field in m.headers then m.headers[field]
    else if Has(m.payload, field) then Scalar(m.payload.value[field])
    else if Has(m.raw, field) then Scalar(m.raw.value[field])
    else ""
  }

  function CoordinatorField(m: Envelope, field: string): string {
    if field in ENVELOPE_FIELDS then EnvelopeField(m, field)
    else if field in m.headers then m.headers[field]
    else if HasPlain(m.payload, field) then Scalar(m.payload.value[field])
    else if HasPlain(m.raw, field) then Scalar(m.raw.value[field])
    else ""
  }

  /** The text that stands for a value of a field in both lookups, where they render it. */
  predicate Renders(value: Json, text: string) {
    match value
    case Text(t) => text == t
    case Integer(digits) => text == digits
    case Flag(on) => text == if on then "true" else "false"
    case Other => text == ""
  }

  /**
   What a field stands for: the envelope's own fields by their names, then headers, then the payload and then the raw
   event. To the orchestrator the first object that has the field decides, to the coordinator the first one that has
   it as a string or an integer.
   */
  lemma FieldsByName(m: Envelope, field: string)
    ensures Names(m, field, OrchestratorField(m, field)) && Names(m, field, CoordinatorField(m, field))
    ensures field !in ENVELOPE_FIELDS && field !in m.headers ==>
              && var o := OrchestratorField(m, field);
              && (m.payload.Some? && field in m.payload.value ==> Renders(m.payload.value[field], o))
              && (!(m.payload.Some? && field in m.payload.value) ==>
                    if m.raw.Some? && field in m.raw.value then Renders(m.raw.value[field], o) else o == "")
              && var c := CoordinatorField(m, field);
              && (HasText(m.payload, field) ==> Renders(m.payload.value[field], c))
              && (!HasText(m.payload, field) ==> if HasText(m.raw, field) then Renders(m.raw.value[field], c) else c == "")
  {
  }

  predicate Names(m: Envelope, field: string, text: string) {
    && (field == "id" ==> text == m.id) && (field == "type" ==> text == m.kind)
    && (field == "source_platform" ==> text == m.platform) && (field == "source_bot" ==> text == m.bot)
    && (field == "conversation_id" ==> text == m.conversation)
    && (field == "correlation_id" ==> text == m.correlation) && (field == "causation_id" ==> text == m.causation)
    && (field !in ENVELOPE_FIELDS && field in m.headers ==> text == m.headers[field])
  }

  /** The object has the field as a string or an integer. */
  predicate HasText(json: Option<map<string, Json>>, field: string) {
    json.Some? && field in json.value && (json.value[field].Text? || json.value[field].Integer?)
  }

  /** What the payload stands for to the orchestrator although the coordinator looks past it. */
  predicate Shadowed(m: Envelope, field: string) {
    Has(m.payload, field) && !Plain(m.payload.value[field])
  }

  /**
   The two lookups agree exactly in these cases: the field is one of the envelope or a header, the first of payload and
   raw that has it holds a string or integer there, or what is not one renders like what the coordinator finds behind.
   */
  lemma FieldsAgreeIff(m: Envelope, field: string)
    ensures OrchestratorField(m, field) == CoordinatorField(m, field) <==>
            || field in ENVELOPE_FIELDS || field in m.headers || HasPlain(m.payload, field)
            || (if Shadowed(m, field) then
                  Scalar(m.payload.value[field]) == if HasPlain(m.raw, field) then Scalar(m.raw.value[field]) else ""
                else !Has(m.raw, field) || !m.raw.value[field].Flag?)
  {
  }

  // ----- tokenisers -----

  /** The position of the first colon, or the length. */
  function Colon(s: string): (i: nat)
    ensures i <= |s| && (i < |s| ==> s[i] == ':') && forall k | 0 <= k < i :: s[k] != ':'
  {
    if s == "" || s[0] == ':' then 0 else 1 + Colon(s[1..])
  }

  /** All pieces between colons: one more than there are colons. */
  function Pieces(s: string): (r: seq<string>)
    ensures r != []
    decreases |s|
  {
    var i := Colon(s);
    if i == |s| then [s] else [s[..i]] + Pieces(s[i + 1..])
  }

  /** What `std::getline` yields until the stream is empty: no piece after a final colon. */
  function Lines(s: string): seq<string>
    decreases |s|
  {
    if s == "" then []
    else
      var i := Colon(s);
      if i == |s| then [s] else [s[..i]] + Lines(s[i + 1..])
  }

  predicate EndsWithColon(s: string) {
    s != "" && s[|s| - 1] == ':'
  }

  /** The tokenisers differ exactly by the empty piece after a final colon. */
  lemma {:induction false} PiecesAreLines(s: string)
    ensures s != "" ==> Pieces(s) == Lines(s) + if EndsWithColon(s) then [""] else []
    decreases |s|
  {
    var i := Colon(s);
    if i < |s| {
      var rest := s[i + 1..];
      PiecesAreLines(rest);
      if rest == "" {
        assert Pieces(rest) == [""];
      } else {
        assert rest[|rest| - 1] == s[|s| - 1];
      }
    }
  }

  // ----- joining -----

  /** The values of the tokens under a lookup. */
  function Values(lookup: string -> string, tokens: seq<string>): (r: seq<string>)
    ensures |r| == |tokens| && forall i | 0 <= i < |r| :: r[i] == lookup(tokens[i])
  {
    seq(|tokens|, i requires 0 <= i < |tokens| => lookup(tokens[i]))
  }

  function ForPipelines(m: Envelope): string -> string {
    (field: string) => OrchestratorField(m, field)
  }

  function ForCommands(m: Envelope): string -> string {
    (field: string) => CoordinatorField(m, field)
  }

  /** The orchestrator puts a separator before every value but the first. */
  function Joined(values: seq<string>): string {
    if values == [] then ""
    else if |values| == 1 then values[0]
    else Joined(values[..|values| - 1]) + ":" + values[|values| - 1]
  }

  /** The coordinator puts one only after something. */
  function Appended(values: seq<string>): string {
    if values == [] then "" else Continued(Appended(values[..|values| - 1]), values[|values| - 1])
  }

  function Continued(key: string, value: string): string {
    (if key == "" then "" else key + ":") + value
  }

  function OrGlobal(key: string): string {
    if key == "" then "global" else key
  }

  function OrchestratorKey(expression: string, m: Envelope): string {
    if expression == "" || expression == "global" then "global"
    else OrGlobal(Joined(Values(ForPipelines(m), Lines(expression))))
  }

  function CoordinatorKey(expression: string, m: Envelope): string {
    if expression == "" || expression == "global" then "global"
    else OrGlobal(Appended(Values(ForCommands(m), Pieces(expression))))
  }

  /** The pieces are what stands between the colons: joined with colons they are the string again. */
  lemma {:induction false} PiecesJoin(s: string)
    ensures Glued(Pieces(s)) == s && forall p | p in Pieces(s) :: ':' !in p
    decreases |s|
  {
    var i := Colon(s);
    if i < |s| {
      PiecesJoin(s[i + 1..]);
      assert s == s[..i] + [':'] + s[i + 1..];
      assert Pieces(s)[1..] == Pieces(s[i + 1..]);
    } else {
      assert forall k | 0 <= k < |s| :: s[k] != ':';
    }
  }

  /** With a colon between every two of the values. */
  function Glued(values: seq<string>): string {
    if values == [] then "" else if |values| == 1 then values[0] else values[0] + ":" + Glued(values[1..])
  }

  lemma {:induction false} GluedMore(values: seq<string>, value: string)
    requires values != []
    ensures Glued(values + [value]) == Glued(values) + ":" + value
  {
    if |values| == 1 {
      assert (values + [value])[1..] == [value];
    } else {
      GluedMore(values[1..], value);
      assert (values + [value])[1..] == values[1..] + [value];
      assert values[0] + ":" + (Glued(values[1..]) + ":" + value) == (values[0] + ":" + Glued(values[1..])) + ":" + value;
    }
  }

  /** The orchestrator glues all values. */
  lemma {:induction false} JoinedIsGlued(values: seq<string>)
    ensures Joined(values) == Glued(values)
  {
    if |values| >= 2 {
      var init, last := values[..|values| - 1], values[|values| - 1];
      JoinedIsGlued(init);
      GluedMore(init, last);
      assert values == init + [last];
    }
  }

  /** Empty values in front. */
  function Leading(values: seq<string>): (n: nat)
    ensures n <= |values| && (forall k | 0 <= k < n :: values[k] == "") && (n < |values| ==> values[n] != "")
  {
    if values == [] || values[0] != "" then 0 else 1 + Leading(values[1..])
  }

  /** The coordinator glues the values behind the empty ones in front. */
  lemma {:induction false} AppendedIsGlued(values: seq<string>)
    ensures Appended(values) == Glued(values[Leading(values)..])
  {
    if values != [] {
      var init, last, n := values[..|values| - 1], values[|values| - 1], Leading(values);
      AppendedIsGlued(init);
      LeadingMore(init, last);
      assert values == init + [last];
      if n < |init| {
        assert values[n..] == init[n..] + [last];
        GluedMore(init[n..], last);
        GluedNonEmpty(init[n..]);
      } else if n == |init| {
        assert init[n..] == [] && values[n..] == [last];
      } else {
        assert values[n..] == [] && init[|init|..] == [];
      }
    }
  }

  lemma {:induction false} LeadingMore(init: seq<string>, last: string)
    ensures Leading(init + [last]) == if Leading(init) < |init| || last != "" then Leading(init) else |init| + 1
  {
    if init != [] && init[0] == "" {
      LeadingMore(init[1..], last);
      assert (init + [last])[1..] == init[1..] + [last];
    }
  }

  lemma GluedNonEmpty(values: seq<string>)
    requires values != [] && values[0] != ""
    ensures Glued(values) != ""
  {
  }

  /**
   The keys, as one can read them off the values of the tokens: all of them between colons for a pipeline, those behind
   the empty ones in front for a command, and "global" when that is nothing.
   */
  lemma KeysAreGlued(expression: string, m: Envelope)
    ensures expression == "" || expression == "global" ==>
              OrchestratorKey(expression, m) == "global" == CoordinatorKey(expression, m)
    ensures expression != "" && expression != "global" ==>
              && var lines, pieces := Values(ForPipelines(m), Lines(expression)), Values(ForCommands(m), Pieces(expression));
              && OrchestratorKey(expression, m) == (if Glued(lines) == "" then "global" else Glued(lines))
              && var rest := Glued(pieces[Leading(pieces)..]);
              && CoordinatorKey(expression, m) == (if rest == "" then "global" else rest)
  {
    JoinedIsGlued(Values(ForPipelines(m), Lines(expression)));
    AppendedIsGlued(Values(ForCommands(m), Pieces(expression)));
  }

  // ----- the loops -----

  /** The loop over `std::getline`. */
  method LineValues(expression: string, lookup: string -> string) returns (values: seq<string>)
    ensures values == Values(lookup, Lines(expression))
  {
    values := [];
    var rest := expression;
    while rest != ""
      invariant Values(lookup, Lines(expression)) == values + Values(lookup, Lines(rest))
      decreases |rest|
    {
      LineStep(lookup, rest);
      ghost var behind := Values(lookup, Lines(After(rest)));
      var value := lookup(rest[..Colon(rest)]);
      assert values + ([value] + behind) == (values + [value]) + behind;
      values := values + [value];
      rest := After(rest);
    }
  }

  /** `resolve_partition_key` of the orchestrator. */
  method ResolveForPipeline(expression: string, m: Envelope) returns (key: string)
    ensures key == OrchestratorKey(expression, m)
  {
    if expression == "" || expression == "global" {
      return "global";
    }
    var values := LineValues(expression, ForPipelines(m));
    key := JoinValues(values);
    key := OrGlobal(key);
  }

  method JoinValues(values: seq<string>) returns (key: string)
    ensures key == Joined(values)
  {
    key := "";
    var k := 0;
    while k < |values|
      invariant k <= |values| && key == Joined(values[..k])
    {
      assert values[..k + 1][..k] == values[..k];
      key := if k == 0 then values[0] else key + ":" + values[k];
      k := k + 1;
    }
    assert values[..k] == values;
  }

  /** `resolve_partition_key` of the coordinator. */
  method ResolveForCommand(expression: string, m: Envelope) returns (key: string)
    ensures key == CoordinatorKey(expression, m)
  {
    if expression == "" || expression == "global" {
      return "global";
    }
    key := AppendPieces(expression, ForCommands(m));
    key := OrGlobal(key);
  }

  /** The loop that looks for separators. */
  method AppendPieces(expression: string, lookup: string -> string) returns (key: string)
    ensures key == Appended(Values(lookup, Pieces(expression)))
  {
    key := "";
    var rest, more := expression, true;
    ghost var before, todo: seq<string> := [], Pieces(expression);
    while more
      invariant key == Appended(before)
      invariant Values(lookup, Pieces(expression)) == before + Values(lookup, todo)
      invariant todo == if more then Pieces(rest) else []
      decreases if more then |rest| + 1 else 0
    {
      var value := lookup(rest[..Colon(rest)]);
      AppendStep(lookup, rest, before);
      key := Continued(key, value);
      todo := Behind(rest);
      more := Colon(rest) < |rest|;
      rest := After(rest);
      before := before + [value];
    }
    assert before + Values(lookup, todo) == before;
  }

  /** The pieces behind the first one. */
  function Behind(s: string): seq<string> {
    if Colon(s) == |s| then [] else Pieces(After(s))
  }

  /** What follows the first colon. */
  function After(s: string): (r: string)
    ensures s != "" ==> |r| < |s|
  {
    if Colon(s) == |s| then "" else s[Colon(s) + 1..]
  }

  lemma LineStep(lookup: string -> string, s: string)
    requires s != ""
    ensures Values(lookup, Lines(s)) == [lookup(s[..Colon(s)])] + Values(lookup, Lines(After(s)))
  {
    FirstLine(s);
  }

  lemma FirstLine(s: string)
    requires s != ""
    ensures Lines(s) == [s[..Colon(s)]] + Lines(After(s))
  {
    assert s[..|s|] == s;
  }

  lemma PieceStep(lookup: string -> string, s: string)
    ensures Values(lookup, Pieces(s)) == [lookup(s[..Colon(s)])] + Values(lookup, Behind(s))
  {
    FirstPiece(s);
  }

  lemma AppendStep(lookup: string -> string, s: string, before: seq<string>)
    ensures var value := lookup(s[..Colon(s)]);
            && before + Values(lookup, Pieces(s)) == (before + [value]) + Values(lookup, Behind(s))
            && Appended(before + [value]) == Continued(Appended(before), value)
  {
    PieceStep(lookup, s);
    AppendedMore(before, lookup(s[..Colon(s)]));
    Regroup(before, lookup(s[..Colon(s)]), Values(lookup, Behind(s)));
  }

  lemma Regroup(before: seq<string>, value: string, behind: seq<string>)
    ensures before + ([value] + behind) == (before + [value]) + behind
  {
  }

  lemma FirstPiece(s: string)
    ensures Pieces(s) == [s[..Colon(s)]] + Behind(s)
  {
    assert s[..|s|] == s;
  }

  lemma AppendedMore(values: seq<string>, value: string)
    ensures Appended(values + [value]) == Continued(Appended(values), value)
  {
    assert (values + [value])[..|values|] == values;
  }

  // ----- when the keys agree -----

  lemma {:induction false} AppendedIsShorter(values: seq<string>)
    ensures values != [] && values[0] != "" ==> Appended(values) == Joined(values) != ""
    ensures |values| >= 2 && values[0] == "" ==> |Appended(values)| < |Joined(values)|
    ensures |values| == 1 ==> Appended(values) == Joined(values)
  {
    if |values| >= 2 {
      var init := values[..|values| - 1];
      AppendedIsShorter(init);
      assert init[0] == values[0];
    } else if |values| == 1 {
      assert Appended(values[..0]) == "";
    }
  }

  /**
   On a message on which the lookups agree, and without a final colon, the keys agree exactly if there is one field, or
   the first of several is not empty.
   */
  lemma JoinsAgreeIff(expression: string, m: Envelope)
    requires expression != "" && expression != "global" && !EndsWithColon(expression)
    requires forall f | f in Pieces(expression) :: OrchestratorField(m, f) == CoordinatorField(m, f)
    ensures OrchestratorKey(expression, m) == CoordinatorKey(expression, m) <==>
            |Pieces(expression)| == 1 || CoordinatorField(m, Pieces(expression)[0]) != ""
  {
    var tokens := Pieces(expression);
    PiecesAreLines(expression);
    assert Lines(expression) == tokens;
    var values := Values(ForCommands(m), tokens);
    assert Values(ForPipelines(m), tokens) == values;
    AppendedIsShorter(values);
    if |tokens| >= 2 && values[0] == "" {
      JoinedHasColon(values);
    }
  }

  lemma {:induction false} JoinedHasColon(values: seq<string>)
    requires |values| >= 2
    ensures ':' in Joined(values) && Joined(values) != "global"
  {
    assert ":"[0] == ':';
    var init, last := values[..|values| - 1], values[|values| - 1];
    assert Joined(values) == Joined(init) + ":" + last;
    assert Joined(values)[|Joined(init)|] == ':';
    assert ':' !in "global";
  }

  /** A message without any content, and one whose every envelope field and header `field` is "x". */
  const BLANK := Envelope("", "", "", "", "", "", "", map[], None, None)

  function Filled(field: string): Envelope {
    Envelope("x", "x", "x", "x", "x", "x", "x", map[field := "x"], None, None)
  }

  /** A message whose payload has the field as a boolean. */
  function Flagged(field: string): Envelope {
    BLANK.(payload := Some(map[field := Flag(true)]))
  }

  lemma {:induction false} BlankJoins(tokens: seq<string>)
    ensures Appended(Values(ForCommands(BLANK), tokens)) == ""
    ensures |tokens| >= 2 ==> Joined(Values(ForPipelines(BLANK), tokens)) != ""
  {
    var values := Values(ForCommands(BLANK), tokens);
    if tokens != [] {
      var init := tokens[..|tokens| - 1];
      BlankJoins(init);
      assert values[..|tokens| - 1] == Values(ForCommands(BLANK), init);
      assert values[|tokens| - 1] == "";
    }
  }

  /** With a colon in the expression the keys differ on a blank message or on one that fills the first field. */
  lemma SeveralDiffer(expression: string)
    requires |Pieces(expression)| >= 2
    ensures OrchestratorKey(expression, BLANK) != CoordinatorKey(expression, BLANK)
            || OrchestratorKey(expression, Filled(Pieces(expression)[0])) != CoordinatorKey(expression, Filled(Pieces(expression)[0]))
  {
    PiecesAreLines(expression);
    var lines, pieces := Lines(expression), Pieces(expression);
    assert expression != "" && expression != "global" by {
      assert Colon("global") == 6 && Colon("") == 0;
    }
    if |lines| >= 2 {
      BlankJoins(lines);
      BlankJoins(pieces);
      JoinedHasColon(Values(ForPipelines(BLANK), lines));
    } else {
      TrailingDiffers(expression);
    }
  }

  lemma TrailingDiffers(expression: string)
    requires |Pieces(expression)| == 2 && |Lines(expression)| == 1 && expression != "" && expression != "global"
    requires Pieces(expression) == Lines(expression) + [""]
    ensures var m := Filled(Pieces(expression)[0]); OrchestratorKey(expression, m) != CoordinatorKey(expression, m)
  {
    var pieces := Pieces(expression);
    var m := Filled(pieces[0]);
    var values := Values(ForCommands(m), pieces);
    assert values[0] == "x" && Lines(expression)[0] == pieces[0];
    AppendedIsShorter(values);
    assert Joined(values) == Joined(values[..1]) + ":" + values[1];
    assert Values(ForPipelines(m), Lines(expression))[0] == "x";
  }

  /** One field that every envelope has. */
  lemma EnvelopeFieldsAgree(expression: string, m: Envelope)
    requires expression in ENVELOPE_FIELDS
    ensures OrchestratorKey(expression, m) == CoordinatorKey(expression, m)
  {
    assert Colon(expression) == |expression| by {
      NoColons(expression);
    }
    AppendedIsShorter(Values(ForCommands(m), [expression]));
    assert Values(ForPipelines(m), [expression]) == Values(ForCommands(m), [expression]);
  }

  lemma NoColons(expression: string)
    requires expression in ENVELOPE_FIELDS
    ensures ':' !in expression && expression != ""
  {
  }

  lemma FlagDiffers(expression: string)
    requires Pieces(expression) == [expression] && expression != "" && expression != "global"
    requires expression !in ENVELOPE_FIELDS
    ensures OrchestratorKey(expression, Flagged(expression)) != CoordinatorKey(expression, Flagged(expression))
  {
    var m := Flagged(expression);
    assert Lines(expression) == [expression];
    assert Values(ForPipelines(m), [expression]) == ["true"];
    assert Values(ForCommands(m), [expression]) == [""];
    AppendedIsShorter([""]);
  }

  /**
   Pipelines and commands partition an actor's messages alike, whatever the messages are, exactly if the expression is
   empty, "global", or names a single field of the envelope.
   */
  lemma PartitionKeysAgree(expression: string)
    ensures (forall m :: OrchestratorKey(expression, m) == CoordinatorKey(expression, m)) <==>
            expression == "" || expression == "global" || expression in ENVELOPE_FIELDS
  {
    if expression in ENVELOPE_FIELDS {
      forall m ensures OrchestratorKey(expression, m) == CoordinatorKey(expression, m) {
        EnvelopeFieldsAgree(expression, m);
      }
    } else if expression != "" && expression != "global" {
      if |Pieces(expression)| >= 2 {
        SeveralDiffer(expression);
      } else {
        OnePiece(expression);
        FlagDiffers(expression);
      }
    }
  }

  lemma OnePiece(expression: string)
    requires |Pieces(expression)| == 1
    ensures Pieces(expression) == [expression]
  {
  }
}

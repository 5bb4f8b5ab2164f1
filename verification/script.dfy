/** The launch configuration's bootstrap script and the two overlays the
    worker generator applies to it. The script is the token list of
    `UserData["Fn::Base64"]["Fn::Join"][1]`: literal strings (lines or
    fragments of shell) interleaved with reference objects such as
    `{"Ref": "AWS::StackName"}`. */
module Script {
  import opened Outcomes
  import opened JsonValue
  import opened JsString

  /** The script line that marks where post-start commands belong. */
  const InitAwsLine: string := "# init-aws\n"

  /** The start of the daemon's label list in the generated daemon.json. */
  const LabelsMarker: string := "\"labels\":[\"os=linux\""

  /** `parts.join('')`. */
  function Concat(parts: seq<string>): string {
    if |parts| == 0 then "" else parts[0] + Concat(parts[1..])
  }

  /** The template literal `"${str}"`. */
  function Quote(str: string): string {
    "\"" + str + "\""
  }

  /** `labels.map(str => `"${str}"`).join(',')`. */
  function QuotedList(labels: seq<string>): string {
    if |labels| == 0 then ""
    else if |labels| == 1 then Quote(labels[0])
    else Quote(labels[0]) + "," + QuotedList(labels[1..])
  }

  // ---------------------------------------------------------------------
  // AfterDaemonStarted

  /** The `.map` of `_setAfterDaemonStarted`: every token strictly equal to
      the init-aws line becomes the joined commands; every other token,
      string or reference object, is kept in its place. */
  function InsertCommands(tokens: seq<Json>, commands: seq<string>): (r: seq<Json>)
    ensures |r| == |tokens|
    ensures forall i :: 0 <= i < |tokens| && tokens[i] == JStr(InitAwsLine) ==> r[i] == JStr(Concat(commands))
    ensures forall i :: 0 <= i < |tokens| && tokens[i] != JStr(InitAwsLine) ==> r[i] == tokens[i]
  {
    if |tokens| == 0 then []
    else
      [if tokens[0] == JStr(InitAwsLine) then JStr(Concat(commands)) else tokens[0]]
      + InsertCommands(tokens[1..], commands)
  }

  /** Unless the commands join to the init-aws line itself, no init-aws line
      survives the insertion. */
  lemma NoInitLineRemains(tokens: seq<Json>, commands: seq<string>)
    requires Concat(commands) != InitAwsLine
    ensures JStr(InitAwsLine) !in InsertCommands(tokens, commands)
  {
  }

  /** Inserting the same commands a second time changes nothing. */
  lemma InsertCommandsIdempotent(tokens: seq<Json>, commands: seq<string>)
    requires Concat(commands) != InitAwsLine
    ensures InsertCommands(InsertCommands(tokens, commands), commands) == InsertCommands(tokens, commands)
  {
  }

  // ---------------------------------------------------------------------
  // Labels

  /** One token of the `.map` of `_setLabels`. */
  function LabelToken(token: Json, quoted: string): Json {
    if !token.JStr? then token
    else if IndexOf(token.s, LabelsMarker).None? then token
    else JStr(ReplaceFirst(token.s, LabelsMarker, LabelsMarker + "," + quoted))
  }

  /** The `.map` of `_setLabels`, token by token. */
  function SpliceLabels(tokens: seq<Json>, labels: seq<string>): (r: seq<Json>)
    ensures |r| == |tokens|
    ensures forall i :: 0 <= i < |tokens| ==> r[i] == LabelToken(tokens[i], QuotedList(labels))
  {
    if |tokens| == 0 then []
    else [LabelToken(tokens[0], QuotedList(labels))] + SpliceLabels(tokens[1..], labels)
  }

  predicate DollarFree(labels: seq<string>) {
    forall i :: 0 <= i < |labels| ==> '$' !in labels[i]
  }

  lemma {:induction false} QuotedListDollarFree(labels: seq<string>)
    requires DollarFree(labels)
    ensures '$' !in QuotedList(labels)
    decreases |labels|
  {
    if |labels| > 1 {
      QuotedListDollarFree(labels[1..]);
    }
  }

  lemma MarkerDollarFree()
    ensures '$' !in LabelsMarker
  {
  }

  /** A string holding the marker gets the quoted labels inserted right
      after the marker's first occurrence. */
  lemma LabelTokenAtMarker(s: string, labels: seq<string>, p: nat)
    requires DollarFree(labels)
    requires FirstOccurrence(s, LabelsMarker, p)
    ensures LabelToken(JStr(s), QuotedList(labels))
            == JStr(s[..p] + LabelsMarker + "," + QuotedList(labels) + s[p + |LabelsMarker|..])
  {
    var quoted := QuotedList(labels);
    var repl := LabelsMarker + "," + quoted;
    QuotedListDollarFree(labels);
    MarkerDollarFree();
    assert '$' !in repl;
    assert IndexOf(s, LabelsMarker).Some?;
    ReplaceFirstVerbatim(s, LabelsMarker, repl, p);
    assert s[..p] + repl + s[p + |LabelsMarker|..]
        == s[..p] + LabelsMarker + "," + quoted + s[p + |LabelsMarker|..];
  }

  /** The label splice of one token, stated without `replace`: reference
      objects and strings without the marker are kept; in a string with the
      marker, the text `,"l1","l2",...` is inserted right after the first
      occurrence of the marker and every other character stays where it was.
      Labels containing `$` are excluded because `replace` expands `$`
      patterns in them (see `Substitute`). */
  lemma LabelTokenInsertsAfterFirstMarker(token: Json, labels: seq<string>)
    requires DollarFree(labels)
    ensures !token.JStr? ==> LabelToken(token, QuotedList(labels)) == token
    ensures token.JStr? && (forall j: nat :: !OccursAt(token.s, LabelsMarker, j))
            ==> LabelToken(token, QuotedList(labels)) == token
    ensures forall p: nat :: token.JStr? && FirstOccurrence(token.s, LabelsMarker, p)
              ==> LabelToken(token, QuotedList(labels))
                  == JStr(token.s[..p] + LabelsMarker + "," + QuotedList(labels)
                          + token.s[p + |LabelsMarker|..])
  {
    forall p: nat | token.JStr? && FirstOccurrence(token.s, LabelsMarker, p)
      ensures LabelToken(token, QuotedList(labels))
              == JStr(token.s[..p] + LabelsMarker + "," + QuotedList(labels)
                      + token.s[p + |LabelsMarker|..])
    {
      LabelTokenAtMarker(token.s, labels, p);
    }
  }
}

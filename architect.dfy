/**
 * The Architect view's workspace: the live schema, the newest-first version history and
 * the chat messages, some of which carry a schema proposal that the user accepts or
 * rejects from a diff card.
 *
 * Clock readings (`Date.now()`) arrive as `now`, formatted clock strings as `time`, and
 * the reply of the text-generation service as a `Reply` value.
 */
module Architect {
  import opened Wrappers
  import opened SchemaDiff
  import opened Ids

  datatype Status = Pending | Accepted | Rejected

  datatype Proposal = Proposal(id: string, description: string, schema: Schema, status: Status)

  datatype Role = User | Ai

  /** A chat message; `steps` are the labels of its processing steps, all of them done. */
  datatype Message = Message(id: string, role: Role, text: string, timestamp: string,
                             steps: seq<string>, proposal: Option<Proposal>)

  datatype SchemaVersion = SchemaVersion(id: string, timestamp: int, schema: Schema, description: string)

  /**
   * What the text-generation service delivered: a parsed answer (each part possibly
   * missing, as in the JSON it comes from), or a failure already turned into the text and
   * step label shown to the user.
   */
  datatype Reply =
    | Answered(steps: Option<seq<string>>, response: Option<string>, proposedSchema: Option<Schema>)
    | Failed(friendlyText: string, stepLabel: string)

  const InitialSchema: Schema := [
    Field("user_id", "UUID", None),
    Field("consent_status", "BOOL", Some(true)),
    Field("vector_embedding", "FLOAT[1536]", None),
    Field("last_interaction", "TIMESTAMP", None)
  ]

  const InitialMessages: seq<Message> := [
    Message("msg-1", Ai,
            "VibeData Architect online. I've analyzed the schema. Shall we jam on the extraction constraints for the 'Medical Ethics' dataset?",
            "02:23 pm",
            ["Initializing context window...", "Schema v4.2 loaded.", "Checking user permissions..."],
            None)
  ]

  const ScoutSchema: Schema := [
    Field("article_title", "STRING", None),
    Field("published_date", "TIMESTAMP", None),
    Field("author_ref", "UUID", None),
    Field("sentiment_score", "FLOAT", None),
    Field("tags", "ARRAY[STRING]", None)
  ]

  function InitialHistory(now: nat): seq<SchemaVersion>
  {
    [SchemaVersion("v1.0", now - 1000000, InitialSchema, "Initial Import")]
  }

  function WelcomeMessage(projectName: string, time: string): Message
  {
    Message("init", Ai,
            "Architect online for project \"" + projectName + "\". How shall we structure your data today?",
            time, ["Initializing new project context..."], None)
  }

  /** The snapshot saved when a proposal is accepted while the history holds `count` entries. */
  function PreUpdateVersion(count: nat, now: nat, schema: Schema, p: Proposal): (v: SchemaVersion)
    ensures ParseVersionId(v.id) == Some(count + 1)
    ensures v.timestamp == now && v.schema == schema
  {
    VersionIdRoundTrip(count + 1);
    SchemaVersion(VersionId(count + 1), now, schema, "Pre-update: " + p.description)
  }

  /** The snapshot saved before a revert. */
  function BackupVersion(now: nat, schema: Schema): (v: SchemaVersion)
    ensures ParseVersionId(v.id).None?
    ensures v.timestamp == now && v.schema == schema
  {
    SchemaVersion("backup-" + NatToString(now), now, schema, "Auto-backup before Revert")
  }

  /** The characters `String.prototype.trim` removes. */
  predicate IsSpace(c: char)
  {
    c in {' ', '\t', '\n', '\r', '\U{000B}', '\U{000C}', '\U{00A0}', '\U{1680}',
          '\U{2028}', '\U{2029}', '\U{202F}', '\U{205F}', '\U{3000}', '\U{FEFF}'} ||
    '\U{2000}' <= c <= '\U{200A}'
  }

  /** `s` without its leading white space. */
  function TrimStart(s: string): (r: string)
    ensures |r| <= |s| && r == s[|s| - |r|..]
    ensures forall i :: 0 <= i < |s| - |r| ==> IsSpace(s[i])
    ensures r == [] || !IsSpace(r[0])
  {
    if s != [] && IsSpace(s[0]) then
      var r := TrimStart(s[1..]);
      assert s[1..][|s| - 1 - |r|..] == s[|s| - |r|..];
      r
    else s
  }

  /** `s` without its trailing white space. */
  function TrimEnd(s: string): (r: string)
    ensures |r| <= |s| && r == s[..|r|]
    ensures forall i :: |r| <= i < |s| ==> IsSpace(s[i])
    ensures r == [] || !IsSpace(r[|r| - 1])
  {
    if s != [] && IsSpace(s[|s| - 1]) then
      var r := TrimEnd(s[..|s| - 1]);
      assert s[..|s| - 1][..|r|] == s[..|r|];
      r
    else s
  }

  /** `String.prototype.trim`. */
  function Trim(s: string): string
  {
    TrimEnd(TrimStart(s))
  }

  /** An input `trim` reduces to the empty string, which the send handler ignores. */
  predicate IsBlank(s: string)
  {
    Trim(s) == ""
  }

  lemma {:induction false} TrimStartEmpty(s: string)
    ensures TrimStart(s) == [] <==> forall i :: 0 <= i < |s| ==> IsSpace(s[i])
  {
    if s != [] && IsSpace(s[0]) {
      TrimStartEmpty(s[1..]);
      assert forall i :: 1 <= i < |s| ==> s[i] == s[1..][i - 1];
    }
  }

  lemma {:induction false} TrimEndEmpty(s: string)
    ensures TrimEnd(s) == [] <==> forall i :: 0 <= i < |s| ==> IsSpace(s[i])
  {
    if s != [] && IsSpace(s[|s| - 1]) {
      TrimEndEmpty(s[..|s| - 1]);
    }
  }

  /** An input is blank exactly when every character of it is white space. */
  lemma BlankIffAllSpace(s: string)
    ensures IsBlank(s) <==> forall i :: 0 <= i < |s| ==> IsSpace(s[i])
  {
    var t := TrimStart(s);
    TrimStartEmpty(s);
    TrimEndEmpty(t);
  }

  // ---------------------------------------------------------------------------
  // Deciding a proposal

  function WithStatus(m: Message, st: Status): Message
    requires m.proposal.Some?
  {
    m.(proposal := Some(m.proposal.value.(status := st)))
  }

  /** The status update mapped over the messages: every message with id `msgId` that carries a proposal. */
  function MarkStatus(ms: seq<Message>, msgId: string, st: Status): (r: seq<Message>)
    ensures |r| == |ms|
    ensures forall k :: 0 <= k < |r| ==>
      r[k] == ms[k] || (r[k].proposal.Some? && r[k].proposal.value.status == st)
  {
    seq(|ms|, k requires 0 <= k < |ms| =>
      if ms[k].id == msgId && ms[k].proposal.Some? then WithStatus(ms[k], st) else ms[k])
  }

  method SetStatus(ms: seq<Message>, msgId: string, st: Status) returns (r: seq<Message>)
    ensures r == MarkStatus(ms, msgId, st)
  {
    r := [];
    var k := 0;
    while k < |ms|
      invariant 0 <= k <= |ms|
      invariant r == MarkStatus(ms, msgId, st)[..k]
    {
      var m := ms[k];
      if m.id == msgId && m.proposal.Some? {
        m := WithStatus(m, st);
      }
      r := r + [m];
      k := k + 1;
    }
  }

  /**
   * Marking changes nothing but statuses: every message keeps its id, role, text, timestamp,
   * steps and proposal content; a message with another id, or without a proposal, is
   * untouched; a marked proposal carries the decision.
   */
  lemma MarkStatusOnlyStatus(ms: seq<Message>, msgId: string, st: Status, k: nat)
    requires k < |ms|
    ensures var r := MarkStatus(ms, msgId, st);
      |r| == |ms| &&
      r[k].(proposal := ms[k].proposal) == ms[k] &&
      r[k].proposal.Some? == ms[k].proposal.Some? &&
      (r[k].proposal.Some? ==> r[k].proposal.value.(status := Pending) == ms[k].proposal.value.(status := Pending)) &&
      (ms[k].id != msgId || ms[k].proposal.None? ==> r[k] == ms[k]) &&
      (ms[k].id == msgId && ms[k].proposal.Some? ==> r[k].proposal.value.status == st)
  {
  }

  /** A repeated decision (a double click) has no further effect. */
  lemma MarkStatusIdempotent(ms: seq<Message>, msgId: string, st: Status)
    ensures MarkStatus(MarkStatus(ms, msgId, st), msgId, st) == MarkStatus(ms, msgId, st)
  {
  }

  // ---------------------------------------------------------------------------
  // History labels

  /**
   * Every `v<n>.0` label in the history sits where `n` says: at position `|h| - n` from
   * the newest end. Backup labels do not read as version labels.
   */
  predicate NumberedFromNewest(h: seq<SchemaVersion>)
  {
    forall i :: 0 <= i < |h| ==> ParseVersionId(h[i].id).None? || ParseVersionId(h[i].id) == Some(|h| - i)
  }

  /** The seeded history `[v1.0]` is numbered from the newest end. */
  lemma InitialHistoryNumbered(now: nat)
    ensures NumberedFromNewest(InitialHistory(now))
  {
    VersionIdRoundTrip(1);
    assert VersionId(1) == "v1.0";
  }

  /** Hence no two history entries share a `v<n>.0` label. */
  lemma VersionLabelsDistinct(h: seq<SchemaVersion>, i: nat, j: nat)
    requires NumberedFromNewest(h)
    requires i < j < |h| && ParseVersionId(h[i].id).Some?
    ensures h[i].id != h[j].id
  {
  }

  lemma PrependKeepsNumbering(h: seq<SchemaVersion>, v: SchemaVersion)
    requires NumberedFromNewest(h)
    requires ParseVersionId(v.id).None? || ParseVersionId(v.id) == Some(|h| + 1)
    ensures NumberedFromNewest([v] + h)
  {
    var h' := [v] + h;
    forall i | 0 <= i < |h'|
      ensures ParseVersionId(h'[i].id).None? || ParseVersionId(h'[i].id) == Some(|h'| - i)
    {
      if i > 0 {
        assert h'[i] == h[i - 1];
      }
    }
  }

  // ---------------------------------------------------------------------------
  // The workspace

  class Workspace {
    var messages: seq<Message>
    var inputValue: string
    var expanded: map<string, bool>
    var typing: bool
    var currentSchema: Schema
    var history: seq<SchemaVersion>
    var scoutOpen: bool

    ghost predicate Valid()
      reads this
    {
      NumberedFromNewest(history)
    }

    /** The state of a freshly mounted view, before the project effect runs. */
    constructor (now: nat)
      ensures Valid()
      ensures messages == InitialMessages && inputValue == "" && expanded == map[] && !typing
      ensures currentSchema == InitialSchema && history == InitialHistory(now) && !scoutOpen
    {
      messages := InitialMessages;
      inputValue := "";
      expanded := map[];
      typing := false;
      currentSchema := InitialSchema;
      history := InitialHistory(now);
      scoutOpen := false;
      InitialHistoryNumbered(now);
    }

    /** The effect that runs whenever the active project changes. */
    method ResetForProject(projectId: string, projectName: string, now: nat, time: string)
      requires Valid()
      modifies this
      ensures Valid()
      ensures projectId == DefaultProjectId ==>
        messages == InitialMessages && currentSchema == InitialSchema && history == InitialHistory(now)
      ensures projectId != DefaultProjectId ==>
        messages == [WelcomeMessage(projectName, time)] && currentSchema == [] && history == []
      ensures inputValue == old(inputValue) && expanded == old(expanded)
      ensures typing == old(typing) && scoutOpen == old(scoutOpen)
    {
      if projectId == DefaultProjectId {
        messages := InitialMessages;
        currentSchema := InitialSchema;
        history := InitialHistory(now);
        InitialHistoryNumbered(now);
      } else {
        messages := [WelcomeMessage(projectName, time)];
        currentSchema := [];
        history := [];
      }
    }

    /** Sending the typed text: nothing happens when it is blank. */
    method Submit(now: nat, time: string) returns (sent: bool)
      requires Valid()
      modifies this
      ensures Valid()
      ensures sent == !IsBlank(old(inputValue))
      ensures sent ==> messages == old(messages) + [Message(NatToString(now), User, old(inputValue), time, [], None)]
      ensures sent ==> inputValue == "" && typing
      ensures !sent ==> messages == old(messages) && inputValue == old(inputValue) && typing == old(typing)
      ensures currentSchema == old(currentSchema) && history == old(history)
      ensures expanded == old(expanded) && scoutOpen == old(scoutOpen)
    {
      sent := !IsBlank(inputValue);
      if sent {
        messages := messages + [Message(NatToString(now), User, inputValue, time, [], None)];
        inputValue := "";
        typing := true;
      }
    }

    /**
     * The reply arrives: an answer is appended (with a pending proposal when it carries a
     * schema, whose processing steps are then shown expanded), a failure becomes an error
     * message. The schema and the history are untouched.
     */
    method ReceiveReply(reply: Reply, now: nat, time: string)
      requires Valid()
      modifies this
      ensures Valid()
      ensures reply.Failed? ==>
        messages == old(messages) + [Message(NatToString(now), Ai, reply.friendlyText, time, [reply.stepLabel], None)] &&
        expanded == old(expanded)
      ensures reply.Answered? ==>
        var aiId := NatToString(now + 1);
        var text := if reply.response.None? || reply.response.value == "" then "Done." else reply.response.value;
        var steps := if reply.steps.None? then ["Processing..."] else reply.steps.value;
        var proposal := if reply.proposedSchema.None? then None
                        else Some(Proposal("prop-" + aiId, "Proposed Schema Updates", reply.proposedSchema.value, Pending));
        messages == old(messages) + [Message(aiId, Ai, text, time, steps, proposal)] &&
        expanded == (if proposal.Some? then old(expanded)[aiId := true] else old(expanded))
      ensures !typing
      ensures currentSchema == old(currentSchema) && history == old(history)
      ensures inputValue == old(inputValue) && scoutOpen == old(scoutOpen)
    {
      typing := false;
      match reply
      case Failed(friendlyText, stepLabel) =>
        messages := messages + [Message(NatToString(now), Ai, friendlyText, time, [stepLabel], None)];
      case Answered(steps, response, proposedSchema) =>
        var aiId := NatToString(now + 1);
        var text := if response.None? || response.value == "" then "Done." else response.value;
        var labels := if steps.None? then ["Processing..."] else steps.value;
        var msg := Message(aiId, Ai, text, time, labels, None);
        if proposedSchema.Some? {
          msg := msg.(proposal := Some(Proposal("prop-" + aiId, "Proposed Schema Updates", proposedSchema.value, Pending)));
          expanded := expanded[aiId := true];
        }
        messages := messages + [msg];
    }

    /**
     * The crawler finished: its fixed schema arrives as a pending proposal. The message id
     * and the proposal id come from two separate clock readings, `now` and `proposalNow`.
     */
    method CompleteScout(target: string, protocol: string, now: nat, proposalNow: nat, time: string)
      requires Valid()
      modifies this
      ensures Valid()
      ensures !scoutOpen
      ensures var id := NatToString(now);
        messages == old(messages) + [Message(id, Ai,
          "Scout Mission Complete. Extracted data from target: \"" + target + "\". I've analyzed the raw structure and normalized entities.",
          time,
          ["Parsing unstructured HTML...", "Extracted 142 records from " + protocol, "Generating schema proposal..."],
          Some(Proposal("prop-" + NatToString(proposalNow), "Auto-generated schema from Scout data", ScoutSchema, Pending)))] &&
        expanded == old(expanded)[id := true]
      ensures currentSchema == old(currentSchema) && history == old(history)
      ensures inputValue == old(inputValue) && typing == old(typing)
    {
      scoutOpen := false;
      var id := NatToString(now);
      var msg := Message(id, Ai,
        "Scout Mission Complete. Extracted data from target: \"" + target + "\". I've analyzed the raw structure and normalized entities.",
        time,
        ["Parsing unstructured HTML...", "Extracted 142 records from " + protocol, "Generating schema proposal..."],
        Some(Proposal("prop-" + NatToString(proposalNow), "Auto-generated schema from Scout data", ScoutSchema, Pending)));
      messages := messages + [msg];
      expanded := expanded[id := true];
    }

    /**
     * Accepting: save the schema about to be replaced as the newest version, install the
     * proposal's schema in full, and mark the message accepted.
     */
    method ApplyProposal(msgId: string, proposal: Proposal, now: nat)
      requires Valid()
      modifies this
      ensures Valid()
      ensures history == [PreUpdateVersion(|old(history)|, now, old(currentSchema), proposal)] + old(history)
      ensures currentSchema == proposal.schema
      ensures messages == MarkStatus(old(messages), msgId, Accepted)
      ensures inputValue == old(inputValue) && expanded == old(expanded)
      ensures typing == old(typing) && scoutOpen == old(scoutOpen)
    {
      var version := PreUpdateVersion(|history|, now, currentSchema, proposal);
      VersionIdRoundTrip(|history| + 1);
      PrependKeepsNumbering(history, version);
      history := [version] + history;
      currentSchema := proposal.schema;
      messages := SetStatus(messages, msgId, Accepted);
    }

    /** Rejecting touches nothing but the message's status. */
    method DiscardProposal(msgId: string)
      requires Valid()
      modifies this
      ensures Valid()
      ensures messages == MarkStatus(old(messages), msgId, Rejected)
      ensures currentSchema == old(currentSchema) && history == old(history)
      ensures inputValue == old(inputValue) && expanded == old(expanded)
      ensures typing == old(typing) && scoutOpen == old(scoutOpen)
    {
      messages := SetStatus(messages, msgId, Rejected);
    }

    /**
     * Reverting: back up the live schema as the newest version, install the target's
     * schema, and say so in the chat. The target stays in the history.
     */
    method RevertToVersion(version: SchemaVersion, now: nat, time: string)
      requires Valid()
      modifies this
      ensures Valid()
      ensures history == [BackupVersion(now, old(currentSchema))] + old(history)
      ensures currentSchema == version.schema
      ensures messages == old(messages) + [Message(NatToString(now), Ai, "Reverted schema to version " + version.id + ".", time, [], None)]
      ensures inputValue == old(inputValue) && expanded == old(expanded)
      ensures typing == old(typing) && scoutOpen == old(scoutOpen)
    {
      var backup := BackupVersion(now, currentSchema);
      PrependKeepsNumbering(history, backup);
      history := [backup] + history;
      currentSchema := version.schema;
      messages := messages + [Message(NatToString(now), Ai, "Reverted schema to version " + version.id + ".", time, [], None)];
    }

    /**
     * What the diff card of message `i` shows: the diff against the live schema, the
     * "no structural changes" notice, and whether the Accept and Reject buttons are there.
     */
    method DiffCard(i: nat) returns (d: DiffResult, noChanges: bool, actionsShown: bool)
      requires i < |messages| && messages[i].proposal.Some?
      ensures d == Diff(currentSchema, messages[i].proposal.value.schema)
      ensures noChanges == NoStructuralChanges(d)
      ensures actionsShown <==> messages[i].proposal.value.status == Pending
    {
      var p := messages[i].proposal.value;
      d := CalculateDiff(currentSchema, p.schema);
      noChanges := d.added == [] && d.removed == [] && d.modified == [];
      actionsShown := p.status == Pending;
    }

    /**
     * The card's Accept button, which exists only while the proposal is pending. Afterwards
     * the proposal is decided, so a second click finds no button and changes nothing.
     */
    method Accept(i: nat, now: nat)
      requires Valid() && i < |messages| && messages[i].proposal.Some?
      modifies this
      ensures Valid()
      ensures var m := old(messages[i]);
        if m.proposal.value.status == Pending then
          history == [PreUpdateVersion(|old(history)|, now, old(currentSchema), m.proposal.value)] + old(history) &&
          currentSchema == m.proposal.value.schema &&
          messages == MarkStatus(old(messages), m.id, Accepted)
        else
          history == old(history) && currentSchema == old(currentSchema) && messages == old(messages)
      ensures |messages| == old(|messages|) && messages[i].proposal.Some?
      ensures messages[i].proposal.value.status != Pending
      ensures inputValue == old(inputValue) && expanded == old(expanded)
      ensures typing == old(typing) && scoutOpen == old(scoutOpen)
    {
      var m := messages[i];
      if m.proposal.value.status == Pending {
        ApplyProposal(m.id, m.proposal.value, now);
      }
    }

    /** The card's Reject button, present only while the proposal is pending. */
    method Reject(i: nat)
      requires Valid() && i < |messages| && messages[i].proposal.Some?
      modifies this
      ensures Valid()
      ensures var m := old(messages[i]);
        messages == if m.proposal.value.status == Pending then MarkStatus(old(messages), m.id, Rejected) else old(messages)
      ensures |messages| == old(|messages|) && messages[i].proposal.Some?
      ensures messages[i].proposal.value.status != Pending
      ensures currentSchema == old(currentSchema) && history == old(history)
      ensures inputValue == old(inputValue) && expanded == old(expanded)
      ensures typing == old(typing) && scoutOpen == old(scoutOpen)
    {
      var m := messages[i];
      if m.proposal.value.status == Pending {
        DiscardProposal(m.id);
      }
    }
  }
}

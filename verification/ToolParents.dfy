/** Every tool message gets an assistant message that announces its call. */
module ToolParents {
  import opened Wrappers
  import opened Canonical

  predicate Announces(m: Message, id: string) {
    m.Assistant? && exists k :: 0 <= k < |m.toolCalls| && m.toolCalls[k].callId == id
  }

  /** The non-empty call ids that an assistant message announces. */
  function Ids(calls: seq<ToolCall>): set<string> {
    if calls == [] then {} else (if calls[0].callId == "" then {} else {calls[0].callId}) + Ids(calls[1..])
  }

  /** The stand-in parent of an orphaned tool message. */
  function Synthetic(callId: string): Message {
    Assistant(None, Some(""), [ToolCall(callId, "_", "{}")])
  }

  predicate Orphaned(announced: set<string>, m: Message) {
    m.Tool? && (m.callId == "" || m.callId !in announced)
  }

  function AnnouncedAfter(announced: set<string>, m: Message): set<string> {
    match m
    case User(_) => announced
    case Assistant(_, _, calls) => announced + Ids(calls)
    case Tool(id, _) => if id == "" then announced else announced + {id}
  }

  function Repaired(announced: set<string>, m: Message): seq<Message> {
    if Orphaned(announced, m) then [Synthetic(m.callId), m] else [m]
  }

  function Normalize(announced: set<string>, msgs: seq<Message>): seq<Message>
    decreases msgs
  {
    if msgs == [] then [] else
      Repaired(announced, msgs[0]) + Normalize(AnnouncedAfter(announced, msgs[0]), msgs[1..])
  }

  predicate NoTools(msgs: seq<Message>) {
    forall k :: 0 <= k < |msgs| ==> !msgs[k].Tool?
  }

  lemma {:induction false} NoToolsUnchanged(announced: set<string>, msgs: seq<Message>)
    requires NoTools(msgs)
    ensures Normalize(announced, msgs) == msgs
    decreases msgs
  {
    if msgs != [] {
      assert forall k :: 0 <= k < |msgs[1..]| ==> msgs[1..][k] == msgs[k + 1];
      NoToolsUnchanged(AnnouncedAfter(announced, msgs[0]), msgs[1..]);
      assert msgs == [msgs[0]] + msgs[1..];
    }
  }

  method NormalizeToolParents(msgs: seq<Message>) returns (out: seq<Message>)
    ensures out == Normalize({}, msgs)
  {
    var any := HasTool(msgs);
    if !any {
      NoToolsUnchanged({}, msgs);
      return msgs;
    }
    out := [];
    var announced: set<string> := {};
    for k := 0 to |msgs|
      invariant out + Normalize(announced, msgs[k..]) == Normalize({}, msgs)
    {
      var m := msgs[k];
      assert msgs[k..][0] == m && msgs[k..][1..] == msgs[k + 1..];
      var more;
      more, announced := RepairOne(announced, m);
      assert out + (more + Normalize(announced, msgs[k + 1..])) == (out + more) + Normalize(announced, msgs[k + 1..]);
      out := out + more;
    }
    assert msgs[|msgs|..] == [];
  }

  /** The loop's step for one message. */
  method RepairOne(announced: set<string>, m: Message) returns (out: seq<Message>, announced': set<string>)
    ensures out == Repaired(announced, m) && announced' == AnnouncedAfter(announced, m)
  {
    out, announced' := [], announced;
    match m {
      case Assistant(_, _, toolCalls) =>
        announced' := Announce(announced, toolCalls);
        out := out + [m];
      case Tool(callId, output) =>
        if callId == "" || callId !in announced {
          out := out + [Assistant(None, Some(""), [ToolCall(callId, "_", "{}")])];
          if callId != "" { announced' := announced + {callId}; }
        }
        out := out + [Tool(callId, output)];
      case User(_) => out := out + [m];
    }
  }

  method HasTool(msgs: seq<Message>) returns (any: bool)
    ensures any <==> !NoTools(msgs)
  {
    for k := 0 to |msgs|
      invariant forall j :: 0 <= j < k ==> !msgs[j].Tool?
    {
      if msgs[k].Tool? { return true; }
    }
    return false;
  }

  method Announce(announced: set<string>, calls: seq<ToolCall>) returns (more: set<string>)
    ensures more == announced + Ids(calls)
  {
    more := announced;
    for k := 0 to |calls|
      invariant more + Ids(calls[k..]) == announced + Ids(calls)
    {
      assert calls[k..][0] == calls[k] && calls[k..][1..] == calls[k + 1..];
      if calls[k].callId != "" {
        more := more + {calls[k].callId};
      }
    }
    assert calls[|calls|..] == [];
  }

  // ----- every tool message has its parent -----

  /** What strict upstreams demand at position `k`. */
  ghost predicate HasParent(msgs: seq<Message>, k: nat)
    requires k < |msgs| && msgs[k].Tool?
  {
    if msgs[k].callId == "" then k > 0 && msgs[k - 1] == Synthetic("")
    else exists j: nat :: j < k && Announces(msgs[j], msgs[k].callId)
  }

  /** Ids announced somewhere in the messages. */
  function AllIds(msgs: seq<Message>): set<string> {
    if msgs == [] then {} else (if msgs[0].Assistant? then Ids(msgs[0].toolCalls) else {}) + AllIds(msgs[1..])
  }

  lemma {:induction false} IdsMeaning(calls: seq<ToolCall>, id: string)
    ensures id in Ids(calls) <==> id != "" && exists k :: 0 <= k < |calls| && calls[k].callId == id
  {
    if calls != [] {
      IdsMeaning(calls[1..], id);
      if exists k :: 0 <= k < |calls| && calls[k].callId == id {
        var k :| 0 <= k < |calls| && calls[k].callId == id;
        if k > 0 { assert calls[1..][k - 1].callId == id; }
      }
      if exists k :: 0 <= k < |calls[1..]| && calls[1..][k].callId == id {
        var k :| 0 <= k < |calls[1..]| && calls[1..][k].callId == id;
        assert calls[k + 1].callId == id;
      }
    }
  }

  /** `before` is the output so far and announces `announced`. */
  ghost predicate Backed(before: seq<Message>, announced: set<string>) {
    forall id :: id in announced ==> exists j: nat :: j < |before| && Announces(before[j], id)
  }

  lemma BackedStep(before: seq<Message>, announced: set<string>, m: Message)
    requires Backed(before, announced)
    ensures Backed(before + Repaired(announced, m), AnnouncedAfter(announced, m))
  {
    var now := before + Repaired(announced, m);
    forall id | id in AnnouncedAfter(announced, m)
      ensures exists j: nat :: j < |now| && Announces(now[j], id)
    {
      if id in announced {
        var j: nat :| j < |before| && Announces(before[j], id);
        assert Announces(now[j], id);
      } else if m.Assistant? {
        IdsMeaning(m.toolCalls, id);
        assert Announces(now[|before|], id);
      } else {
        assert now[|before|] == Synthetic(id);
        assert now[|before|].toolCalls[0].callId == id;
        assert Announces(now[|before|], id);
      }
    }
  }

  lemma RepairedHasParent(before: seq<Message>, announced: set<string>, m: Message)
    requires Backed(before, announced) && m.Tool?
    ensures var now := before + Repaired(announced, m);
      now[|now| - 1] == m && HasParent(now, |now| - 1)
  {
    var now := before + Repaired(announced, m);
    if Orphaned(announced, m) {
      assert now[|before|] == Synthetic(m.callId);
      assert now[|before|].toolCalls[0].callId == m.callId;
      assert Announces(now[|before|], m.callId);
    } else {
      var j: nat :| j < |before| && Announces(before[j], m.callId);
      assert Announces(now[j], m.callId);
    }
  }

  lemma ParentSurvives(a: seq<Message>, b: seq<Message>, k: nat)
    requires k < |a| && a[k].Tool? && HasParent(a, k)
    ensures HasParent(a + b, k)
  {
    if a[k].callId != "" {
      var j: nat :| j < k && Announces(a[j], a[k].callId);
      assert Announces((a + b)[j], a[k].callId);
    }
  }

  lemma {:induction false} NormalizedHasParents(before: seq<Message>, announced: set<string>, msgs: seq<Message>,
      k: nat)
    requires Backed(before, announced)
    requires var all := before + Normalize(announced, msgs); |before| <= k < |all| && all[k].Tool?
    ensures HasParent(before + Normalize(announced, msgs), k)
    decreases msgs
  {
    var m, rest := msgs[0], Normalize(AnnouncedAfter(announced, msgs[0]), msgs[1..]);
    var now := before + Repaired(announced, m);
    assert now + rest == before + Normalize(announced, msgs);
    BackedStep(before, announced, m);
    if k < |now| {
      assert k == |now| - 1 && now[k] == m;
      RepairedHasParent(before, announced, m);
      ParentSurvives(now, rest, k);
    } else {
      NormalizedHasParents(now, AnnouncedAfter(announced, m), msgs[1..], k);
    }
  }

  /** In the output every tool message with an id follows an assistant announcing it,
      and one without an id directly follows its own stand-in parent. */
  lemma EveryToolHasParent(msgs: seq<Message>, k: nat)
    requires k < |Normalize({}, msgs)| && Normalize({}, msgs)[k].Tool?
    ensures HasParent(Normalize({}, msgs), k)
  {
    assert [] + Normalize({}, msgs) == Normalize({}, msgs);
    NormalizedHasParents([], {}, msgs, k);
  }

  // ----- only stand-ins are added -----

  /** Which output messages are stand-ins. */
  function Added(announced: set<string>, msgs: seq<Message>): seq<bool>
    decreases msgs
  {
    if msgs == [] then [] else
      (if Orphaned(announced, msgs[0]) then [true, false] else [false])
        + Added(AnnouncedAfter(announced, msgs[0]), msgs[1..])
  }

  function Kept(msgs: seq<Message>, added: seq<bool>): seq<Message>
    requires |msgs| == |added|
  {
    if msgs == [] then [] else (if added[0] then [] else [msgs[0]]) + Kept(msgs[1..], added[1..])
  }

  function Count(added: seq<bool>): nat {
    if added == [] then 0 else (if added[0] then 1 else 0) + Count(added[1..])
  }

  lemma {:induction false} KeptAppend(a: seq<Message>, fa: seq<bool>, b: seq<Message>, fb: seq<bool>)
    requires |a| == |fa| && |b| == |fb|
    ensures Kept(a + b, fa + fb) == Kept(a, fa) + Kept(b, fb)
    ensures Count(fa + fb) == Count(fa) + Count(fb)
  {
    if a == [] {
      assert a + b == b && fa + fb == fb;
    } else {
      HeadTail(a, b);
      HeadTail(fa, fb);
      KeptAppend(a[1..], fa[1..], b, fb);
      var first := if fa[0] then [] else [a[0]];
      assert first + (Kept(a[1..], fa[1..]) + Kept(b, fb)) == (first + Kept(a[1..], fa[1..])) + Kept(b, fb);
    }
  }

  lemma HeadTail<T>(a: seq<T>, b: seq<T>)
    requires a != []
    ensures a + b != [] && (a + b)[0] == a[0] && (a + b)[1..] == a[1..] + b
  {
  }

  lemma OneKept(announced: set<string>, m: Message)
    ensures var f := if Orphaned(announced, m) then [true, false] else [false];
      && |Repaired(announced, m)| == |f| && Kept(Repaired(announced, m), f) == [m]
      && Count(f) == if Orphaned(announced, m) then 1 else 0
  {
    assert [true, false][1..] == [false] && [false][1..] == [];
    assert [m][1..] == [] && [Synthetic(""), m][1..] == [m];
    assert Kept([], []) == [] && Count([]) == 0;
    if Orphaned(announced, m) {
      assert Repaired(announced, m)[1..] == [m];
      assert Kept([m], [false]) == [m] + Kept([], []);
    }
  }

  /** Nothing but stand-ins is added, and deleting them gives back the input. */
  lemma {:induction false} DeletingStandInsRestores(announced: set<string>, msgs: seq<Message>)
    ensures var out, added := Normalize(announced, msgs), Added(announced, msgs);
      && |added| == |out| && Kept(out, added) == msgs
      && forall k :: 0 <= k < |out| && added[k] ==>
           k + 1 < |out| && out[k + 1].Tool?
           && out[k] == Assistant(None, Some(""), [ToolCall(out[k + 1].callId, "_", "{}")])
    decreases msgs
  {
    if msgs != [] {
      var m, announced' := msgs[0], AnnouncedAfter(announced, msgs[0]);
      var f := if Orphaned(announced, m) then [true, false] else [false];
      OneKept(announced, m);
      DeletingStandInsRestores(announced', msgs[1..]);
      KeptAppend(Repaired(announced, m), f, Normalize(announced', msgs[1..]), Added(announced', msgs[1..]));
      assert [m] + msgs[1..] == msgs;
    }
  }

  // ----- how many are added -----

  /** `id` is used by a tool message before anything announces it. */
  ghost predicate IsOrphanId(announced: set<string>, msgs: seq<Message>, id: string) {
    && id != "" && id !in announced
    && exists k: nat :: k < |msgs| && msgs[k].Tool? && msgs[k].callId == id
         && forall j: nat :: j < k ==> !Announces(msgs[j], id)
  }

  function OrphanIds(announced: set<string>, msgs: seq<Message>): set<string>
    decreases msgs
  {
    if msgs == [] then {} else
      (if Orphaned(announced, msgs[0]) && msgs[0].callId != "" then {msgs[0].callId} else {})
      + OrphanIds(AnnouncedAfter(announced, msgs[0]), msgs[1..])
  }

  function EmptyTools(msgs: seq<Message>): nat {
    if msgs == [] then 0 else (if msgs[0].Tool? && msgs[0].callId == "" then 1 else 0) + EmptyTools(msgs[1..])
  }

  lemma {:induction false} OrphanIdsMeaning(announced: set<string>, msgs: seq<Message>, id: string)
    ensures id in OrphanIds(announced, msgs) <==> IsOrphanId(announced, msgs, id)
    decreases msgs
  {
    if msgs != [] {
      var m, rest := msgs[0], msgs[1..];
      OrphanIdsMeaning(AnnouncedAfter(announced, m), rest, id);
      if m.Assistant? { IdsMeaning(m.toolCalls, id); }
      if IsOrphanId(announced, msgs, id) { OrphanToRest(announced, msgs, id); }
      if IsOrphanId(AnnouncedAfter(announced, m), rest, id) { OrphanFromRest(announced, msgs, id); }
      if Orphaned(announced, m) && m.callId == id && id != "" { assert msgs[0].Tool?; }
    }
  }

  lemma OrphanToRest(announced: set<string>, msgs: seq<Message>, id: string)
    requires msgs != [] && IsOrphanId(announced, msgs, id)
    ensures (msgs[0].Tool? && msgs[0].callId == id) || IsOrphanId(AnnouncedAfter(announced, msgs[0]), msgs[1..], id)
  {
    var k: nat :| k < |msgs| && msgs[k].Tool? && msgs[k].callId == id
      && forall j: nat :: j < k ==> !Announces(msgs[j], id);
    if k > 0 {
      var rest := msgs[1..];
      assert !Announces(msgs[0], id);
      if msgs[0].Assistant? { IdsMeaning(msgs[0].toolCalls, id); }
      assert rest[k - 1] == msgs[k];
      assert forall j: nat :: j < k - 1 ==> rest[j] == msgs[j + 1];
    }
  }

  lemma OrphanFromRest(announced: set<string>, msgs: seq<Message>, id: string)
    requires msgs != [] && IsOrphanId(AnnouncedAfter(announced, msgs[0]), msgs[1..], id)
    ensures IsOrphanId(announced, msgs, id)
  {
    var rest := msgs[1..];
    var k: nat :| k < |rest| && rest[k].Tool? && rest[k].callId == id
      && forall j: nat :: j < k ==> !Announces(rest[j], id);
    if msgs[0].Assistant? { IdsMeaning(msgs[0].toolCalls, id); }
    assert msgs[k + 1] == rest[k];
    forall j: nat | j < k + 1 ensures !Announces(msgs[j], id) {
      if j > 0 { assert msgs[j] == rest[j - 1]; }
    }
  }

  lemma {:induction false} OrphanIdsFresh(announced: set<string>, msgs: seq<Message>)
    ensures OrphanIds(announced, msgs) !! announced
    decreases msgs
  {
    if msgs != [] { OrphanIdsFresh(AnnouncedAfter(announced, msgs[0]), msgs[1..]); }
  }

  /** Exactly one stand-in is added per distinct orphan id, plus one per tool message
      without an id. */
  lemma {:induction false} StandInCount(announced: set<string>, msgs: seq<Message>)
    ensures Count(Added(announced, msgs)) == |OrphanIds(announced, msgs)| + EmptyTools(msgs)
    decreases msgs
  {
    if msgs != [] {
      var m, announced' := msgs[0], AnnouncedAfter(announced, msgs[0]);
      var f := if Orphaned(announced, m) then [true, false] else [false];
      OneKept(announced, m);
      StandInCount(announced', msgs[1..]);
      DeletingStandInsRestores(announced', msgs[1..]);
      KeptAppend(Repaired(announced, m), f, Normalize(announced', msgs[1..]), Added(announced', msgs[1..]));
      OrphanIdsFresh(announced', msgs[1..]);
      if Orphaned(announced, m) && m.callId != "" {
        assert m.callId !in OrphanIds(announced', msgs[1..]);
        assert |{m.callId} + OrphanIds(announced', msgs[1..])| == 1 + |OrphanIds(announced', msgs[1..])|;
      } else {
        assert {} + OrphanIds(announced', msgs[1..]) == OrphanIds(announced', msgs[1..]);
      }
    }
  }

  // ----- repairing twice -----

  lemma {:induction false} LengthGrows(announced: set<string>, msgs: seq<Message>)
    ensures |Normalize(announced, msgs)| == |msgs| + Count(Added(announced, msgs))
    decreases msgs
  {
    if msgs != [] {
      var m, announced' := msgs[0], AnnouncedAfter(announced, msgs[0]);
      LengthGrows(announced', msgs[1..]);
      OneKept(announced, m);
      DeletingStandInsRestores(announced', msgs[1..]);
      KeptAppend(Repaired(announced, m), if Orphaned(announced, m) then [true, false] else [false],
        Normalize(announced', msgs[1..]), Added(announced', msgs[1..]));
    }
  }

  /** A second repair finds every id announced; only empty-id tools get a second
      stand-in. */
  lemma {:induction false} SecondRepair(announced: set<string>, msgs: seq<Message>)
    ensures var out := Normalize(announced, msgs);
      OrphanIds(announced, out) == {} && EmptyTools(out) == EmptyTools(msgs)
      && (EmptyTools(msgs) == 0 ==> Normalize(announced, out) == out)
    decreases msgs
  {
    if msgs != [] {
      var m, announced' := msgs[0], AnnouncedAfter(announced, msgs[0]);
      var rest := Normalize(announced', msgs[1..]);
      SecondRepair(announced', msgs[1..]);
      var out := Normalize(announced, msgs);
      if Orphaned(announced, m) {
        assert out == [Synthetic(m.callId)] + ([m] + rest);
        PairRepaired(announced, m, rest);
      } else {
        assert out[0] == m && out[1..] == rest;
        if m.Tool? { assert announced' == announced; }
      }
    }
  }

  /** A second repair meets a stand-in and its tool message, and then the rest. */
  lemma PairRepaired(announced: set<string>, m: Message, rest: seq<Message>)
    requires Orphaned(announced, m)
    ensures var out, announced' := [Synthetic(m.callId)] + ([m] + rest), AnnouncedAfter(announced, m);
      && OrphanIds(announced, out) == OrphanIds(announced', rest)
      && EmptyTools(out) == EmptyTools(rest) + (if m.callId == "" then 1 else 0)
      && (m.callId != "" ==> Normalize(announced, out) == out[..2] + Normalize(announced', rest))
  {
    var parent, tail := Synthetic(m.callId), [m] + rest;
    var out := [parent] + tail;
    StandInAnnounces(announced, m.callId);
    assert out[0] == parent && out[1..] == tail && tail[0] == m && tail[1..] == rest;
    if m.callId != "" {
      assert Normalize(announced, out) == [parent] + ([m] + Normalize(AnnouncedAfter(announced, m), rest));
      assert out[..2] == [parent] + [m];
    }
  }

  lemma StandInAnnounces(announced: set<string>, id: string)
    ensures AnnouncedAfter(announced, Synthetic(id)) == if id == "" then announced else announced + {id}
  {
    var calls := Synthetic(id).toolCalls;
    assert calls[1..] == [] && Ids(calls[1..]) == {};
    assert announced + {} == announced;
  }

  /** Repairing is idempotent exactly on inputs where every tool message has an id. */
  lemma IdempotentExactly(msgs: seq<Message>)
    ensures Normalize({}, Normalize({}, msgs)) == Normalize({}, msgs) <==> EmptyTools(msgs) == 0
  {
    var out := Normalize({}, msgs);
    SecondRepair({}, msgs);
    LengthGrows({}, out);
    StandInCount({}, out);
  }

  /** One tool message without an id gets a second stand-in from a second repair. */
  lemma EmptyIdRepairedAgain(output: string)
    ensures var once := [Synthetic(""), Tool("", output)];
      && Normalize({}, [Tool("", output)]) == once
      && Normalize({}, once) == [Synthetic(""), Synthetic(""), Tool("", output)]
  {
    var t, s := Tool("", output), Synthetic("");
    OneTool({}, output);
    assert [s, t][1..] == [t];
    OneTool(AnnouncedAfter({}, s), output);
    assert Normalize({}, [s, t]) == [s] + Normalize(AnnouncedAfter({}, s), [t]);
  }

  lemma OneTool(announced: set<string>, output: string)
    ensures Normalize(announced, [Tool("", output)]) == [Synthetic(""), Tool("", output)]
  {
    assert [Tool("", output)][1..] == [];
    assert Normalize(announced, [Tool("", output)]) == [Synthetic(""), Tool("", output)] + [];
  }
}

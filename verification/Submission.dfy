/** Submitting the prepared draft (summary_draft.go, resolveSummaryDraftArguments, and the
    handler of tool_emit_summary_response.go): a handle stands for the run's one text, and
    exactly when the guard accepts what preparation handed over. */
module Submission {
  import opened GoText
  import opened Markdown
  import opened Citation
  import opened CitationCluster
  import opened CitationRewrite
  import opened CitationString
  import opened SummaryDraft

  const AGENT_PREVIEW := "agent_preview"
  const AGENT_REVISION := "agent_revision"

  /** preview.content_handle as it arrives. */
  datatype Field = Absent | NotAString | Given(handle: string)

  datatype Preview = Preview(handle: Field, content: Option<string>, version: int, parentMessageId: int, effectiveScope: bool)

  /** The arguments of a submission; result type, reply and target are trimmed, and
      `others` says whether workflow or confirmation fields are present. */
  datatype Args =
    | Malformed
    | BadPreview
    | Args(resultType: string, reply: string, executionTarget: string, preview: Option<Preview>, others: bool)

  datatype Resolved = Unresolved | Resolved(args: Args)

  predicate OwnHandle(handle: string, text: string, p: Preview) {
    handle != "" && p.handle == Given(handle) && p.content.None? && text != ""
  }

  function Inlined(p: Preview, text: string): Preview {
    p.(handle := Absent, content := Some(text))
  }

  /** The draft state as a submission sees it: None in a legacy run. */
  datatype Draft = Draft(handle: string, text: string)

  function ResolveSpec(draft: Option<Draft>, args: Args): Resolved {
    if args.Malformed? then Resolved(args)
    else if args.BadPreview? then Unresolved
    else if args.preview.None? then Resolved(args)
    else if draft.None? then if args.preview.value.handle.Absent? then Resolved(args) else Unresolved
    else if OwnHandle(draft.value.handle, draft.value.text, args.preview.value)
    then Resolved(args.(preview := Some(Inlined(args.preview.value, draft.value.text))))
    else Unresolved
  }

  ghost function StateOf(state: SummaryDraftState?): Option<Draft>
    reads state
  {
    if state == null then None else Some(Draft(state.handle, state.text))
  }

  /** In a live workspace a preview resolves exactly when it names this run's draft and
      carries no text of its own; it then carries the draft's text. A legacy run has no
      draft: its inline text passes, a handle does not. */
  method ResolveDraftArguments(state: SummaryDraftState?, args: Args) returns (r: Resolved)
    ensures r == ResolveSpec(StateOf(state), args)
  {
    if args.Malformed? {
      return Resolved(args);
    }
    if args.BadPreview? {
      return Unresolved;
    }
    if args.preview.None? || args.preview.value.handle.Absent? {
      if state != null && args.preview.Some? {
        return Unresolved;
      }
      return Resolved(args);
    }
    var preview := args.preview.value;
    if preview.content.Some? {
      return Unresolved;
    }
    if preview.handle.NotAString? || state == null || preview.handle.handle == "" || preview.handle.handle != state.handle || state.text == "" {
      return Unresolved;
    }
    return Resolved(args.(preview := Some(Inlined(preview, state.text))));
  }

  predicate IsPreview(a: Args) {
    a.Args? && a.resultType in {AGENT_PREVIEW, AGENT_REVISION}
  }

  /** The shape demanded of a preview or revision, apart from its text. */
  predicate PreviewShape(a: Args)
    requires a.Args?
  {
    && a.executionTarget == AGENT_PREVIEW && !a.others && a.preview.Some?
    && a.preview.value.version > 0 && !a.preview.value.effectiveScope
    && (if a.resultType == AGENT_PREVIEW then a.preview.value.parentMessageId == 0 else a.preview.value.parentMessageId > 0)
  }

  /** What a request is judged by: the types its route allows, the shape rule for the other
      result types, and the evidence. */
  datatype Rules = Rules(allowedTypes: Option<set<string>>, otherShape: Args -> bool, ev: EvidenceWindow)

  predicate Allowed(rules: Rules, a: Args)
    requires a.Args?
  {
    !Blank(a.reply) && (rules.allowedTypes.Some? ==> a.resultType in rules.allowedTypes.value)
  }

  /** The text of a preview is there, not blank, and passes the guard. */
  predicate PreviewText(lower: CaseMap, rules: Rules, p: Preview) {
    p.content.Some? && !Blank(p.content.value) && GuardAccepts(lower, rules.ev, p.content.value)
  }

  function SubmitSpec(lower: CaseMap, draft: Option<Draft>, args: Args, rules: Rules): Option<Args> {
    var r := ResolveSpec(draft, args);
    if r.Resolved? && r.args.Args? && Allowed(rules, r.args)
       && (if IsPreview(r.args) then PreviewShape(r.args) && PreviewText(lower, rules, r.args.preview.value) else rules.otherShape(r.args))
    then Some(r.args) else None
  }

  /** The handler of emit_summary_response. */
  method Submit(lower: CaseMap, state: SummaryDraftState?, args: Args, rules: Rules) returns (accepted: Option<Args>)
    ensures accepted == SubmitSpec(lower, StateOf(state), args, rules)
  {
    var r := ResolveDraftArguments(state, args);
    if r.Unresolved? || !r.args.Args? {
      return None;
    }
    var a := r.args;
    if Blank(a.reply) {
      return None;
    }
    if IsPreview(a) {
      if !PreviewShape(a) || a.preview.value.content.None? || Blank(a.preview.value.content.value) {
        return None;
      }
    } else if !rules.otherShape(a) {
      return None;
    }
    if rules.allowedTypes.Some? && a.resultType !in rules.allowedTypes.value {
      return None;
    }
    if IsPreview(a) {
      var guarded := EmitCitationGuard(lower, rules.ev, a.preview.value.content.value);
      if !guarded {
        return None;
      }
    }
    return Some(a);
  }

  /** In a live workspace a preview is accepted if and only if it names this run's draft,
      its shape and type are allowed, and the draft is not blank and passes the guard. */
  lemma {:induction false} LivePreviewAcceptedIff(lower: CaseMap, draft: Draft, args: Args, rules: Rules)
    requires IsPreview(args)
    ensures SubmitSpec(lower, Some(draft), args, rules).Some?
       <==> && Allowed(rules, args) && PreviewShape(args) && OwnHandle(draft.handle, draft.text, args.preview.value)
            && !Blank(draft.text) && GuardAccepts(lower, rules.ev, draft.text)
  {
  }

  /** What a live workspace accepts carries the draft's text or no text at all, and an
      accepted preview passes the citation guard. */
  lemma {:induction false} AcceptedCarriesDraft(lower: CaseMap, draft: Option<Draft>, args: Args, rules: Rules)
    requires SubmitSpec(lower, draft, args, rules).Some?
    ensures var a := SubmitSpec(lower, draft, args, rules).value;
      && a.Args? && a.reply == args.reply
      && (draft.Some? && a.preview.Some? ==> draft.value.handle != "" && a.preview.value.content == Some(draft.value.text))
      && (IsPreview(a) ==> a.preview.Some? && a.preview.value.content.Some? && GuardAccepts(lower, rules.ev, a.preview.value.content.value))
  {
  }

  // ----- What preparation hands over is accepted -----

  /** Expanding citations never leaves a text blank. */
  lemma {:induction false} ExpansionKeepsInk(a: seq<Atom>, near: bool, valid: Evidence)
    requires Blank(Chars(Render(Expanded(a, near, valid))))
    ensures Blank(Chars(Render(a)))
  {
    if a != [] {
      var near' := NearAfter(near, a[0]);
      var rest := Expanded(a[1..], near', valid);
      ExpandedUnfold(a, near, valid);
      if Cluster(a, near, valid)[0] {
        InkInFront(Dedup(a[0].indices), rest);
      } else {
        RenderCons(a[0], rest);
        RenderCons(a[0], a[1..]);
        assert [a[0]] + a[1..] == a;
        BlankParts(RenderAtom(a[0]), Render(rest));
        ExpansionKeepsInk(a[1..], near', valid);
        BlankParts(RenderAtom(a[0]), Render(a[1..]));
      }
    }
  }

  lemma {:induction false} BlankParts(u: Text, v: Text)
    ensures Blank(Chars(u + v)) <==> Blank(Chars(u)) && Blank(Chars(v))
  {
    var s, t := Chars(u), Chars(v);
    assert Chars(u + v) == s + t;
    if Blank(s + t) {
      forall i | 0 <= i < |s| ensures IsSpace(s[i]) { assert s[i] == (s + t)[i]; }
      forall i | 0 <= i < |t| ensures IsSpace(t[i]) { assert t[i] == (s + t)[|s| + i]; }
    }
  }

  lemma {:induction false} InkInFront(ns: seq<nat>, rest: seq<Atom>)
    requires ns != []
    ensures !Blank(Chars(Render(Singles(ns) + rest)))
  {
    var s := Singles(ns);
    assert s + rest == [s[0]] + (s[1..] + rest);
    RenderCons(s[0], s[1..] + rest);
    assert Chars(Render(s + rest))[0] == '[';
  }

  lemma {:induction false} CanonicalIsNotBlank(lower: CaseMap, ev: EvidenceWindow, content: string)
    requires !Blank(content)
    ensures !Blank(Canonicalized(lower, ev, content))
  {
    MaskedChars(lower, content);
    RenderScan(NEUTRAL, Masked(lower, content));
    if Blank(Chars(Render(Expanded(Cut(lower, content), false, Usable(ev))))) {
      ExpansionKeepsInk(Cut(lower, content), false, Usable(ev));
    }
  }

  /** Every text preparation can hand over is not blank, within size and wholly backed. The
      guard accepts it, except when it is the canonical form of a writer answer in which
      every citation is protected by a written marker with a defined label. */
  lemma {:induction false} PreparedIsSubmittableIff(lower: CaseMap, ev: EvidenceWindow, analyses: seq<string>, writer: Writer, calls: nat, text: string)
    requires Written(lower, ev, analyses, writer, calls, text)
    ensures !Blank(text) && ByteLen(text) <= MAX_DRAFT_BYTES && Backed(lower, ev, text)
    ensures var last := writer.turn(calls - 1);
      GuardAccepts(lower, ev, text)
      <==> (Verdict(lower, ev, last) == Accepted && ev.hasEvidence ==> CitationLeft(lower, last.content, ev.allowed))
  {
    hide Canonicalized, CitationLeft, GuardAccepts, Backed, NumberFree;
    var last := writer.turn(calls - 1);
    if Verdict(lower, ev, last) == Accepted {
      AcceptedStaysAcceptableIff(lower, ev, last.toolCalls, last.truncated, last.content);
      CanonicalIsNotBlank(lower, ev, last.content);
    } else {
      var i :| 0 <= i < |analyses| && SummaryDraft.Acceptable(lower, ev, analyses[i]) && text == Canonicalized(lower, ev, analyses[i]);
      AcceptedPasses(lower, ev, false, false, text);
    }
  }
}

/** The context-setting tool `set_azure_context`: the copy shared by the
    specialists (DAPEAgent/azure/shared_tools.py, identical to
    DAPEAgent/shared_tools.py) and the triage agent's variant
    (DAPEAgent/triage_agent.py). Both fill each identifier only while it is
    falsy, create the authentication object when absent, and report what was
    already there and what was written. */
module SharedTools {
  import opened Wrappers
  import opened Text
  import opened AzureConfig

  /** The four optional tool arguments. */
  datatype ContextArgs = ContextArgs(
    subscriptionId: Option<string>,
    resourceGroupName: Option<string>,
    resourceName: Option<string>,
    intent: Option<string>)
  {
    function Get(f: Field): Option<string>
    {
      match f
      case SubscriptionId => subscriptionId
      case ResourceGroupName => resourceGroupName
      case ResourceName => resourceName
      case Intent => intent
    }
  }

  const Header := "Message from set_azure_context: "
  const AuthNewlySetLine := "Authentication: Newly set"
  const AllAvailableLine := "All required information is now available!"
  const AuthInitializedLine := "Authentication: Initialized"
  const AuthNotInitializedLine := "Authentication: Not initialized"

  function Label(f: Field): string
  {
    match f
    case SubscriptionId => "Subscription ID"
    case ResourceGroupName => "Resource Group"
    case ResourceName => "Resource Name"
    case Intent => "Intent"
  }

  /** One report entry, `"<label>: <value>"`. */
  function Entry(f: Field, v: string): string
  {
    Label(f) + ": " + v
  }

  /** The per-field rule: a truthy value stays; otherwise any supplied
      argument (even `""`) is written; otherwise nothing changes. */
  function Merge(cur: Option<string>, arg: Option<string>): (r: Option<string>)
    ensures Truthy(cur) ==> r == cur
    ensures !Truthy(cur) && arg.Some? ==> r == arg
    ensures !Truthy(cur) && arg.None? ==> r == cur
  {
    if Truthy(cur) then cur else if arg.Some? then arg else cur
  }

  // ---------------------------------------------------------------------
  // Field-by-field pass, in the order the source visits the fields
  // ---------------------------------------------------------------------

  datatype Progress = Progress(ctx: AzureCtx, available: seq<string>, newlySet: seq<string>)

  function VisitField(p: Progress, f: Field, a: ContextArgs): Progress
  {
    var cur := p.ctx.Get(f);
    if Truthy(cur) then
      p.(available := p.available + [Entry(f, cur.value)])
    else if a.Get(f).Some? then
      p.(ctx := p.ctx.With(f, a.Get(f)), newlySet := p.newlySet + [Entry(f, a.Get(f).value)])
    else p
  }

  function VisitFields(p: Progress, fs: seq<Field>, a: ContextArgs): Progress
    decreases |fs|
  {
    if |fs| == 0 then p else VisitFields(VisitField(p, fs[0], a), fs[1..], a)
  }

  // ---------------------------------------------------------------------
  // Declarative description of the report entries
  // ---------------------------------------------------------------------

  /** Entries for the fields of `fs` that are already truthy in `c`. */
  function AvailableEntries(c: AzureCtx, fs: seq<Field>): seq<string>
    decreases |fs|
  {
    if |fs| == 0 then []
    else (if Truthy(c.Get(fs[0])) then [Entry(fs[0], c.Get(fs[0]).value)] else [])
         + AvailableEntries(c, fs[1..])
  }

  /** Entries for the fields of `fs` that are falsy in `c` and supplied in `a`. */
  function NewEntries(c: AzureCtx, a: ContextArgs, fs: seq<Field>): seq<string>
    decreases |fs|
  {
    if |fs| == 0 then []
    else (if !Truthy(c.Get(fs[0])) && a.Get(fs[0]).Some? then [Entry(fs[0], a.Get(fs[0]).value)] else [])
         + NewEntries(c, a, fs[1..])
  }

  /** Labels of the fields of `fs` that are falsy in `c`. */
  function MissingLabels(c: AzureCtx, fs: seq<Field>): seq<string>
    decreases |fs|
  {
    if |fs| == 0 then []
    else (if !Truthy(c.Get(fs[0])) then [Label(fs[0])] else []) + MissingLabels(c, fs[1..])
  }

  predicate NoDuplicates(fs: seq<Field>)
  {
    forall i, j :: 0 <= i < j < |fs| ==> fs[i] != fs[j]
  }

  lemma {:induction false} AvailableEntriesFrame(c1: AzureCtx, c2: AzureCtx, fs: seq<Field>)
    requires forall i :: 0 <= i < |fs| ==> c1.Get(fs[i]) == c2.Get(fs[i])
    ensures AvailableEntries(c1, fs) == AvailableEntries(c2, fs)
    decreases |fs|
  {
    if |fs| > 0 {
      AvailableEntriesFrame(c1, c2, fs[1..]);
    }
  }

  lemma {:induction false} NewEntriesFrame(c1: AzureCtx, c2: AzureCtx, a: ContextArgs, fs: seq<Field>)
    requires forall i :: 0 <= i < |fs| ==> c1.Get(fs[i]) == c2.Get(fs[i])
    ensures NewEntries(c1, a, fs) == NewEntries(c2, a, fs)
    decreases |fs|
  {
    if |fs| > 0 {
      NewEntriesFrame(c1, c2, a, fs[1..]);
    }
  }

  /** The field-by-field pass applies `Merge` to each visited field and
      leaves the other fields and the handle alone. */
  lemma {:induction false} VisitFieldsContext(p: Progress, fs: seq<Field>, a: ContextArgs)
    requires NoDuplicates(fs)
    ensures forall g :: g in fs ==> VisitFields(p, fs, a).ctx.Get(g) == Merge(p.ctx.Get(g), a.Get(g))
    ensures forall g :: g !in fs ==> VisitFields(p, fs, a).ctx.Get(g) == p.ctx.Get(g)
    ensures VisitFields(p, fs, a).ctx.auth == p.ctx.auth
    decreases |fs|
  {
    if |fs| > 0 {
      var f := fs[0];
      var p1 := VisitField(p, f, a);
      assert NoDuplicates(fs[1..]);
      VisitFieldsContext(p1, fs[1..], a);
      assert f !in fs[1..];
      forall g | g in fs
        ensures VisitFields(p, fs, a).ctx.Get(g) == Merge(p.ctx.Get(g), a.Get(g))
      {
        if g != f {
          assert g in fs[1..];
        }
      }
    }
  }

  /** The pass collects exactly the declarative already-available entries,
      in visiting order. */
  lemma {:induction false} VisitFieldsAvailable(p: Progress, fs: seq<Field>, a: ContextArgs)
    requires NoDuplicates(fs)
    ensures VisitFields(p, fs, a).available == p.available + AvailableEntries(p.ctx, fs)
    decreases |fs|
  {
    if |fs| > 0 {
      var p1 := VisitField(p, fs[0], a);
      assert NoDuplicates(fs[1..]);
      VisitFieldsAvailable(p1, fs[1..], a);
      VisitFieldAvailable(p, fs, a);
    }
  }

  /** One step of the pass adds the first field's already-available entry
      and leaves the entries of the remaining fields as they were. */
  lemma {:induction false} VisitFieldAvailable(p: Progress, fs: seq<Field>, a: ContextArgs)
    requires |fs| > 0 && fs[0] !in fs[1..]
    ensures var p1 := VisitField(p, fs[0], a);
      p1.available + AvailableEntries(p1.ctx, fs[1..]) == p.available + AvailableEntries(p.ctx, fs)
  {
    var f := fs[0];
    assert [f] + fs[1..] == fs;
    if Truthy(p.ctx.Get(f)) || a.Get(f).None? {
      KeptFieldAvailable(p, f, fs[1..], a);
    } else {
      WrittenFieldAvailable(p, f, fs[1..], a);
    }
  }

  lemma {:induction false} KeptFieldAvailable(p: Progress, f: Field, rest: seq<Field>, a: ContextArgs)
    requires Truthy(p.ctx.Get(f)) || a.Get(f).None?
    ensures var p1 := VisitField(p, f, a);
      p1.available + AvailableEntries(p1.ctx, rest) == p.available + AvailableEntries(p.ctx, [f] + rest)
  {
    var p1 := VisitField(p, f, a);
    var head := if Truthy(p.ctx.Get(f)) then [Entry(f, p.ctx.Get(f).value)] else [];
    assert p1.ctx == p.ctx && p1.available == p.available + head;
    var fs := [f] + rest;
    assert fs[0] == f && fs[1..] == rest;
    assert AvailableEntries(p.ctx, fs) == head + AvailableEntries(p.ctx, rest);
    assert p.available + head + AvailableEntries(p.ctx, rest) == p.available + (head + AvailableEntries(p.ctx, rest));
  }

  lemma {:induction false} WrittenFieldAvailable(p: Progress, f: Field, rest: seq<Field>, a: ContextArgs)
    requires f !in rest
    requires !Truthy(p.ctx.Get(f)) && a.Get(f).Some?
    ensures var p1 := VisitField(p, f, a);
      p1.available + AvailableEntries(p1.ctx, rest) == p.available + AvailableEntries(p.ctx, [f] + rest)
  {
    var p1 := VisitField(p, f, a);
    var c1 := p.ctx.With(f, a.Get(f));
    assert p1.ctx == c1 && p1.available == p.available;
    forall i | 0 <= i < |rest|
      ensures c1.Get(rest[i]) == p.ctx.Get(rest[i])
    {
      assert rest[i] != f;
    }
    AvailableEntriesFrame(c1, p.ctx, rest);
    var fs := [f] + rest;
    assert fs[0] == f && fs[1..] == rest;
    assert AvailableEntries(p.ctx, fs) == AvailableEntries(p.ctx, rest);
  }

  /** The pass collects exactly the declarative newly-set entries, in
      visiting order. */
  lemma {:induction false} VisitFieldsNewlySet(p: Progress, fs: seq<Field>, a: ContextArgs)
    requires NoDuplicates(fs)
    ensures VisitFields(p, fs, a).newlySet == p.newlySet + NewEntries(p.ctx, a, fs)
    decreases |fs|
  {
    if |fs| > 0 {
      var p1 := VisitField(p, fs[0], a);
      assert NoDuplicates(fs[1..]);
      VisitFieldsNewlySet(p1, fs[1..], a);
      VisitFieldNewlySet(p, fs, a);
    }
  }

  /** One step of the pass adds the first field's newly-set entry and leaves
      the entries of the remaining fields as they were. */
  lemma {:induction false} VisitFieldNewlySet(p: Progress, fs: seq<Field>, a: ContextArgs)
    requires |fs| > 0 && fs[0] !in fs[1..]
    ensures var p1 := VisitField(p, fs[0], a);
      p1.newlySet + NewEntries(p1.ctx, a, fs[1..]) == p.newlySet + NewEntries(p.ctx, a, fs)
  {
    var f := fs[0];
    assert [f] + fs[1..] == fs;
    if Truthy(p.ctx.Get(f)) || a.Get(f).None? {
      SkippedFieldNewlySet(p, f, fs[1..], a);
    } else {
      WrittenFieldNewlySet(p, f, fs[1..], a);
    }
  }

  lemma {:induction false} SkippedFieldNewlySet(p: Progress, f: Field, rest: seq<Field>, a: ContextArgs)
    requires Truthy(p.ctx.Get(f)) || a.Get(f).None?
    ensures var p1 := VisitField(p, f, a);
      p1.newlySet + NewEntries(p1.ctx, a, rest) == p.newlySet + NewEntries(p.ctx, a, [f] + rest)
  {
    var p1 := VisitField(p, f, a);
    assert p1.newlySet == p.newlySet && p1.ctx == p.ctx;
    var fs := [f] + rest;
    assert fs[0] == f && fs[1..] == rest;
    assert NewEntries(p.ctx, a, fs) == NewEntries(p.ctx, a, rest);
  }

  lemma {:induction false} WrittenFieldNewlySet(p: Progress, f: Field, rest: seq<Field>, a: ContextArgs)
    requires f !in rest
    requires !Truthy(p.ctx.Get(f)) && a.Get(f).Some?
    ensures var p1 := VisitField(p, f, a);
      p1.newlySet + NewEntries(p1.ctx, a, rest) == p.newlySet + NewEntries(p.ctx, a, [f] + rest)
  {
    var p1 := VisitField(p, f, a);
    var head := [Entry(f, a.Get(f).value)];
    assert p1.ctx == p.ctx.With(f, a.Get(f)) && p1.newlySet == p.newlySet + head;
    WrittenFieldKeepsRest(p.ctx, f, rest, a);
    NewEntriesCons(p.ctx, a, f, rest);
    AppendAssoc(p.newlySet, head, NewEntries(p.ctx, a, rest));
  }

  lemma AppendAssoc(xs: seq<string>, ys: seq<string>, zs: seq<string>)
    ensures xs + ys + zs == xs + (ys + zs)
  {
  }

  /** Writing `f` leaves the newly-set entries of fields other than `f` as they were. */
  lemma WrittenFieldKeepsRest(c: AzureCtx, f: Field, rest: seq<Field>, a: ContextArgs)
    requires f !in rest
    ensures NewEntries(c.With(f, a.Get(f)), a, rest) == NewEntries(c, a, rest)
  {
    var c1 := c.With(f, a.Get(f));
    forall i | 0 <= i < |rest|
      ensures c1.Get(rest[i]) == c.Get(rest[i])
    {
      assert rest[i] != f;
    }
    NewEntriesFrame(c1, c, a, rest);
  }

  lemma NewEntriesCons(c: AzureCtx, a: ContextArgs, f: Field, rest: seq<Field>)
    ensures NewEntries(c, a, [f] + rest)
         == (if !Truthy(c.Get(f)) && a.Get(f).Some? then [Entry(f, a.Get(f).value)] else []) + NewEntries(c, a, rest)
  {
    var fs := [f] + rest;
    assert fs[0] == f && fs[1..] == rest;
  }

  /** The source's pass over the four fields, in declarative terms. */
  lemma PassMeaning(c: AzureCtx, a: ContextArgs)
    ensures var q := VisitFields(Progress(c, [], []), FieldOrder, a);
      && (forall f :: q.ctx.Get(f) == Merge(c.Get(f), a.Get(f)))
      && q.ctx.auth == c.auth
      && q.available == AvailableEntries(c, FieldOrder)
      && q.newlySet == NewEntries(c, a, FieldOrder)
  {
    var p := Progress(c, [], []);
    VisitFieldsContext(p, FieldOrder, a);
    VisitFieldsAvailable(p, FieldOrder, a);
    VisitFieldsNewlySet(p, FieldOrder, a);
    forall f ensures f in FieldOrder { FieldOrderComplete(f); }
  }

  lemma FieldOrderComplete(f: Field)
    ensures f in FieldOrder
  {
  }

  // ---------------------------------------------------------------------
  // The shared tool (DAPEAgent/azure/shared_tools.py)
  // ---------------------------------------------------------------------

  datatype Outcome = Outcome(ctx: AzureCtx, message: string)

  const AvailableTitle := "Already available: "
  const NewlySetTitle := "Newly set: "
  const MissingTitle := "Still missing: "

  /** One report line `title` followed by the comma-separated `items`, or no
      line at all when there are no items. */
  function Section(title: string, items: seq<string>): (r: seq<string>)
    ensures |r| <= 1
    ensures r != [] <==> items != []
  {
    if items != [] then [title + Join(items, ", ")] else []
  }

  /** The status lines of the shared tool: the header, the authentication
      line when a handle was created, then the already-available and the
      newly-set lines when non-empty. */
  function StatusLines(c: AzureCtx, a: ContextArgs): seq<string>
  {
    [Header]
    + (if c.auth.None? then [AuthNewlySetLine] else [])
    + Section(AvailableTitle, AvailableEntries(c, FieldOrder))
    + Section(NewlySetTitle, NewEntries(c, a, FieldOrder))
  }

  function SetAzureContext(c: AzureCtx, a: ContextArgs, newAuth: AuthRef): (r: Outcome)
    ensures forall f :: r.ctx.Get(f) == Merge(c.Get(f), a.Get(f))
    ensures c.auth.None? ==> r.ctx.auth == Some(newAuth)
    ensures c.auth.Some? ==> r.ctx.auth == c.auth
    ensures r.message == Join(StatusLines(c, a), "\n")
  {
    var p := VisitFields(Progress(c, [], []), FieldOrder, a);
    PassMeaning(c, a);
    var authLine := if p.ctx.auth.None? then [AuthNewlySetLine] else [];
    var ctx := if p.ctx.auth.None? then p.ctx.(auth := Some(newAuth)) else p.ctx;
    var statusParts := [Header] + authLine
      + (if |p.available| > 0 then [AvailableTitle + Join(p.available, ", ")] else [])
      + (if |p.newlySet| > 0 then [NewlySetTitle + Join(p.newlySet, ", ")] else []);
    Outcome(ctx, Join(statusParts, "\n"))
  }

  // ---------------------------------------------------------------------
  // The triage agent's variant (DAPEAgent/triage_agent.py)
  // ---------------------------------------------------------------------

  /** The triage variant's status lines: no header; already-available and
      newly-set lines when non-empty; the missing fields (evaluated after the
      update) or the all-available line; the authentication line. */
  function TriageLines(c: AzureCtx, a: ContextArgs, after: AzureCtx): seq<string>
  {
    TriageLayout(AvailableEntries(c, FieldOrder), NewEntries(c, a, FieldOrder),
                 MissingLabels(after, FieldOrder), after.auth.Some?)
  }

  /** The triage report's layout for given entries and missing labels. */
  function TriageLayout(available: seq<string>, newlySet: seq<string>, missing: seq<string>, authSet: bool): seq<string>
  {
    Section(AvailableTitle, available)
    + Section(NewlySetTitle, newlySet)
    + (if missing != [] then Section(MissingTitle, missing) else [AllAvailableLine])
    + [if authSet then AuthInitializedLine else AuthNotInitializedLine]
  }

  /** The triage variant's pass, with the handle ensured afterwards, gives
      the merged context and the declarative report lines. */
  lemma TriagePassMeaning(c: AzureCtx, a: ContextArgs, newAuth: AuthRef)
    ensures var p := VisitFields(Progress(c, [], []), FieldOrder, a);
      var ctx := if p.ctx.auth.None? then p.ctx.(auth := Some(newAuth)) else p.ctx;
      && (forall f :: ctx.Get(f) == Merge(c.Get(f), a.Get(f)))
      && ctx.auth == Some(c.auth.GetOr(newAuth))
      && TriageLayout(p.available, p.newlySet, MissingLabels(ctx, FieldOrder), ctx.auth.Some?) == TriageLines(c, a, ctx)
  {
    var p := VisitFields(Progress(c, [], []), FieldOrder, a);
    PassMeaning(c, a);
    var ctx := if p.ctx.auth.None? then p.ctx.(auth := Some(newAuth)) else p.ctx;
    assert forall f :: ctx.Get(f) == p.ctx.Get(f);
  }

  function TriageSetAzureContext(c: AzureCtx, a: ContextArgs, newAuth: AuthRef): (r: Outcome)
    ensures forall f :: r.ctx.Get(f) == Merge(c.Get(f), a.Get(f))
    ensures r.ctx.auth == Some(c.auth.GetOr(newAuth))
    ensures r.message == Join(TriageLines(c, a, r.ctx), "\n")
  {
    var p := VisitFields(Progress(c, [], []), FieldOrder, a);
    TriagePassMeaning(c, a, newAuth);
    var ctx := if p.ctx.auth.None? then p.ctx.(auth := Some(newAuth)) else p.ctx;
    var missing := MissingLabels(ctx, FieldOrder);
    Outcome(ctx, Join(TriageLayout(p.available, p.newlySet, missing, ctx.auth.Some?), "\n"))
  }

  // ---------------------------------------------------------------------
  // Properties of the two tools
  // ---------------------------------------------------------------------

  /** The context a call leaves, stated field by field: each identifier
      merged with its argument, and a handle (the one already there, else
      the new one). */
  function UpdatedContext(c: AzureCtx, a: ContextArgs, newAuth: AuthRef): (r: AzureCtx)
    ensures forall f :: r.Get(f) == Merge(c.Get(f), a.Get(f))
    ensures r.auth == Some(c.auth.GetOr(newAuth))
  {
    AzureCtx(Merge(c.subscriptionId, a.subscriptionId), Merge(c.resourceGroupName, a.resourceGroupName),
             Merge(c.resourceName, a.resourceName), Merge(c.intent, a.intent), Some(c.auth.GetOr(newAuth)))
  }

  /** Either variant on the run's context (`triage` picks the triage
      agent's): without a context, reading the first identifier raises and
      the exception leaves the tool; with one, the tool reports on the
      context it updated. */
  function SetAzureContextOn(context: Option<AzureCtx>, a: ContextArgs, newAuth: AuthRef, triage: bool): (r: Result<Outcome, string>)
    ensures context.None? ==> r == Failure(NoContextError)
    ensures context.Some? ==> r.Success? && r.value.ctx == UpdatedContext(context.value, a, newAuth)
  {
    match context
    case None => Failure(NoContextError)
    case Some(c) =>
      VariantsAgreeOnContext(c, a, newAuth);
      Success(if triage then TriageSetAzureContext(c, a, newAuth) else SetAzureContext(c, a, newAuth))
  }

  /** Both variants update the context identically, and their pass over
      the fields in report order leaves the field-by-field merge. */
  lemma VariantsAgreeOnContext(c: AzureCtx, a: ContextArgs, newAuth: AuthRef)
    ensures SetAzureContext(c, a, newAuth).ctx == UpdatedContext(c, a, newAuth)
    ensures TriageSetAzureContext(c, a, newAuth).ctx == UpdatedContext(c, a, newAuth)
  {
    var u := UpdatedContext(c, a, newAuth);
    u.Extensional(SetAzureContext(c, a, newAuth).ctx);
    u.Extensional(TriageSetAzureContext(c, a, newAuth).ctx);
  }

  /** Calling the tool again with the same arguments changes no field and
      keeps the handle: a truthy field stays, and a field left falsy receives
      the same value again. */
  lemma SetAzureContextIdempotent(c: AzureCtx, a: ContextArgs, newAuth1: AuthRef, newAuth2: AuthRef)
    ensures var once := SetAzureContext(c, a, newAuth1).ctx;
            SetAzureContext(once, a, newAuth2).ctx == once
  {
    var once := SetAzureContext(c, a, newAuth1).ctx;
    var twice := SetAzureContext(once, a, newAuth2).ctx;
    forall f ensures twice.Get(f) == once.Get(f) {
      assert once.Get(f) == Merge(c.Get(f), a.Get(f));
    }
    once.Extensional(twice);
  }

  /** On a repeated call the report no longer announces a new handle, and
      when every argument is either absent or non-empty nothing is newly set. */
  lemma RepeatedCallReportsNothingNew(c: AzureCtx, a: ContextArgs, newAuth1: AuthRef)
    requires forall f :: a.Get(f).None? || Truthy(a.Get(f))
    ensures var once := SetAzureContext(c, a, newAuth1).ctx;
            && once.auth.Some?
            && NewEntries(once, a, FieldOrder) == []
  {
    var once := SetAzureContext(c, a, newAuth1).ctx;
    assert once.auth.Some? by {
      assert c.auth.None? ==> once.auth == Some(newAuth1);
    }
    SettledAfterMerge(c, a, once);
  }

  /** A context merged with arguments that are absent or truthy has nothing
      left for those arguments to set. */
  lemma SettledAfterMerge(c: AzureCtx, a: ContextArgs, once: AzureCtx)
    requires forall f :: a.Get(f).None? || Truthy(a.Get(f))
    requires forall f :: once.Get(f) == Merge(c.Get(f), a.Get(f))
    ensures NewEntries(once, a, FieldOrder) == []
  {
    forall i | 0 <= i < |FieldOrder|
      ensures Truthy(once.Get(FieldOrder[i])) || a.Get(FieldOrder[i]).None?
    {
      assert once.Get(FieldOrder[i]) == Merge(c.Get(FieldOrder[i]), a.Get(FieldOrder[i]));
    }
    NoNewEntriesWhenSettled(once, a, FieldOrder);
  }

  lemma {:induction false} NoNewEntriesWhenSettled(c: AzureCtx, a: ContextArgs, fs: seq<Field>)
    requires forall i :: 0 <= i < |fs| ==> Truthy(c.Get(fs[i])) || a.Get(fs[i]).None?
    ensures NewEntries(c, a, fs) == []
    decreases |fs|
  {
    if |fs| > 0 {
      NoNewEntriesWhenSettled(c, a, fs[1..]);
    }
  }

  /** There are already-available entries exactly when some field of `fs`
      is truthy. */
  lemma {:induction false} AvailableEntriesNonEmpty(c: AzureCtx, fs: seq<Field>)
    ensures AvailableEntries(c, fs) != [] <==> exists i :: 0 <= i < |fs| && Truthy(c.Get(fs[i]))
    decreases |fs|
  {
    if |fs| > 0 {
      AvailableEntriesNonEmpty(c, fs[1..]);
      if exists i :: 0 <= i < |fs| && Truthy(c.Get(fs[i])) {
        var i :| 0 <= i < |fs| && Truthy(c.Get(fs[i]));
        if i > 0 {
          assert fs[1..][i - 1] == fs[i];
        }
      }
    }
  }

  /** There are newly-set entries exactly when some falsy field of `fs` is
      supplied. */
  lemma {:induction false} NewEntriesNonEmpty(c: AzureCtx, a: ContextArgs, fs: seq<Field>)
    ensures NewEntries(c, a, fs) != [] <==>
            exists i :: 0 <= i < |fs| && !Truthy(c.Get(fs[i])) && a.Get(fs[i]).Some?
    decreases |fs|
  {
    if |fs| > 0 {
      NewEntriesNonEmpty(c, a, fs[1..]);
      if exists i :: 0 <= i < |fs| && !Truthy(c.Get(fs[i])) && a.Get(fs[i]).Some? {
        var i :| 0 <= i < |fs| && !Truthy(c.Get(fs[i])) && a.Get(fs[i]).Some?;
        if i > 0 {
          assert fs[1..][i - 1] == fs[i];
        }
      }
    }
  }

  /** The "Still missing" list names exactly the falsy fields of `fs`. */
  lemma {:induction false} MissingLabelsMeaning(c: AzureCtx, fs: seq<Field>, f: Field)
    ensures Label(f) in MissingLabels(c, fs) <==> f in fs && !Truthy(c.Get(f))
    decreases |fs|
  {
    if |fs| > 0 {
      MissingLabelsMeaning(c, fs[1..], f);
      assert Label(fs[0]) == Label(f) <==> fs[0] == f;
      assert f in fs <==> f == fs[0] || f in fs[1..];
    }
  }

  /** No value of the context or of the arguments contains a newline. */
  predicate SingleLineValues(c: AzureCtx, a: ContextArgs)
  {
    forall f :: (c.Get(f).Some? ==> '\n' !in c.Get(f).value) && (a.Get(f).Some? ==> '\n' !in a.Get(f).value)
  }

  /** No line of `lines` contains a newline. */
  predicate SingleLines(lines: seq<string>)
  {
    forall i :: 0 <= i < |lines| ==> '\n' !in lines[i]
  }

  lemma {:induction false} EntriesSingleLine(c: AzureCtx, a: ContextArgs, fs: seq<Field>)
    requires SingleLineValues(c, a)
    ensures SingleLines(AvailableEntries(c, fs))
    ensures SingleLines(NewEntries(c, a, fs))
    ensures SingleLines(MissingLabels(c, fs))
    decreases |fs|
  {
    if |fs| > 0 {
      EntriesSingleLine(c, a, fs[1..]);
    }
  }

  /** A section built from newline-free items under a newline-free title
      has no newline. */
  lemma SectionSingleLine(title: string, items: seq<string>)
    requires '\n' !in title
    requires SingleLines(items)
    ensures SingleLines(Section(title, items))
  {
    JoinAvoids(items, ", ", '\n');
  }

  lemma SingleLinesConcat(xs: seq<string>, ys: seq<string>)
    requires SingleLines(xs) && SingleLines(ys)
    ensures SingleLines(xs + ys)
  {
    forall i | 0 <= i < |xs + ys|
      ensures '\n' !in (xs + ys)[i]
    {
      if i >= |xs| {
        assert (xs + ys)[i] == ys[i - |xs|];
      }
    }
  }

  /** The fixed lines and titles contain no newline. */
  lemma FixedTextSingleLine()
    ensures SingleLines([Header, AuthNewlySetLine, AllAvailableLine, AuthInitializedLine, AuthNotInitializedLine])
    ensures '\n' !in AvailableTitle && '\n' !in NewlySetTitle && '\n' !in MissingTitle
  {
    var lines := [Header, AuthNewlySetLine, AllAvailableLine, AuthInitializedLine, AuthNotInitializedLine];
    forall i | 0 <= i < |lines|
      ensures '\n' !in lines[i]
    {
      NoNewlineIn(lines[i]);
    }
  }

  lemma NoNewlineIn(s: string)
    requires s in {Header, AuthNewlySetLine, AllAvailableLine, AuthInitializedLine, AuthNotInitializedLine}
    ensures '\n' !in s
  {
  }

  lemma StatusLinesSingleLine(c: AzureCtx, a: ContextArgs)
    requires SingleLineValues(c, a)
    ensures SingleLines(StatusLines(c, a))
  {
    FixedTextSingleLine();
    EntriesSingleLine(c, a, FieldOrder);
    var l0: seq<string> := [Header];
    var l1: seq<string> := if c.auth.None? then [AuthNewlySetLine] else [];
    var l2 := Section(AvailableTitle, AvailableEntries(c, FieldOrder));
    var l3 := Section(NewlySetTitle, NewEntries(c, a, FieldOrder));
    SectionSingleLine(AvailableTitle, AvailableEntries(c, FieldOrder));
    SectionSingleLine(NewlySetTitle, NewEntries(c, a, FieldOrder));
    SingleLinesConcat(l0, l1);
    SingleLinesConcat(l0 + l1, l2);
    SingleLinesConcat(l0 + l1 + l2, l3);
  }

  /** The shared tool's message reads back, line by line, as its status
      lines, the first of which is the fixed header. */
  lemma StatusReportReadsBack(c: AzureCtx, a: ContextArgs, newAuth: AuthRef)
    requires SingleLineValues(c, a)
    ensures Split(SetAzureContext(c, a, newAuth).message, '\n') == StatusLines(c, a)
    ensures StatusLines(c, a)[0] == Header
  {
    StatusLinesSingleLine(c, a);
    SplitJoin(StatusLines(c, a), '\n');
  }

  /** Which optional lines the shared report carries: the handle line iff
      there was no handle, the already-available line iff some field was
      truthy, the newly-set line iff some falsy field was supplied. */
  lemma StatusReportSections(c: AzureCtx, a: ContextArgs)
    ensures var lines := StatusLines(c, a);
      && (c.auth.None? ==> lines[1] == AuthNewlySetLine)
      && |lines| == 1 + (if c.auth.None? then 1 else 0)
                      + (if exists f :: Truthy(c.Get(f)) then 1 else 0)
                      + (if exists f :: !Truthy(c.Get(f)) && a.Get(f).Some? then 1 else 0)
  {
    AvailableEntriesNonEmpty(c, FieldOrder);
    NewEntriesNonEmpty(c, a, FieldOrder);
    forall f ensures f in FieldOrder { FieldOrderComplete(f); }
    assert (exists f :: Truthy(c.Get(f))) <==> exists i :: 0 <= i < |FieldOrder| && Truthy(c.Get(FieldOrder[i]));
    assert (exists f :: !Truthy(c.Get(f)) && a.Get(f).Some?) <==>
           exists i :: 0 <= i < |FieldOrder| && !Truthy(c.Get(FieldOrder[i])) && a.Get(FieldOrder[i]).Some?;
  }

  /** The line starts with `title`. */
  predicate Titled(s: string, title: string)
  {
    |s| >= |title| && s[..|title|] == title
  }

  /** Two strings that differ at `k` within the title are not one titled by
      the other, nor equal. */
  lemma DiffersAt(s: string, title: string, k: nat)
    requires k < |s| && k < |title| && s[k] != title[k]
    ensures !Titled(s, title) && s != title
  {
    if |s| >= |title| {
      assert s[..|title|][k] == s[k];
    }
  }

  /** A section line carries its own title, and differs at `k` from any
      string that differs from the title there. */
  lemma SectionLine(title: string, items: seq<string>, other: string, k: nat)
    requires k < |title| && k < |other| && title[k] != other[k]
    ensures Section(title, items) != [] ==> Titled(Section(title, items)[0], title)
    ensures Section(title, items) != [] ==>
      !Titled(Section(title, items)[0], other) && Section(title, items)[0] != other
  {
    if items != [] {
      var line := title + Join(items, ", ");
      assert line[..|title|] == title;
      assert line[k] == title[k];
      DiffersAt(line, other, k);
    }
  }

  /** Some field is truthy exactly when the available section has entries. */
  lemma SomeAvailable(c: AzureCtx)
    ensures AvailableEntries(c, FieldOrder) != [] <==> exists f :: Truthy(c.Get(f))
  {
    AvailableEntriesNonEmpty(c, FieldOrder);
    forall f ensures f in FieldOrder { FieldOrderComplete(f); }
    assert (exists f :: Truthy(c.Get(f))) <==> exists i :: 0 <= i < |FieldOrder| && Truthy(c.Get(FieldOrder[i]));
  }

  /** Some falsy field was supplied exactly when the newly-set section has entries. */
  lemma SomeNewlySet(c: AzureCtx, a: ContextArgs)
    ensures NewEntries(c, a, FieldOrder) != [] <==> exists f :: !Truthy(c.Get(f)) && a.Get(f).Some?
  {
    NewEntriesNonEmpty(c, a, FieldOrder);
    forall f ensures f in FieldOrder { FieldOrderComplete(f); }
    assert (exists f :: !Truthy(c.Get(f)) && a.Get(f).Some?) <==>
           exists i :: 0 <= i < |FieldOrder| && !Truthy(c.Get(FieldOrder[i])) && a.Get(FieldOrder[i]).Some?;
  }

  /** Every line of the shared report is the header, the handle line, or the
      one line of a section. */
  lemma StatusLineKinds(c: AzureCtx, a: ContextArgs, i: nat)
    requires i < |StatusLines(c, a)|
    ensures var line := StatusLines(c, a)[i];
      || (i == 0 && line == Header)
      || (c.auth.None? && line == AuthNewlySetLine)
      || (AvailableEntries(c, FieldOrder) != [] && line == Section(AvailableTitle, AvailableEntries(c, FieldOrder))[0])
      || (NewEntries(c, a, FieldOrder) != [] && line == Section(NewlySetTitle, NewEntries(c, a, FieldOrder))[0])
  {
    var l1: seq<string> := if c.auth.None? then [AuthNewlySetLine] else [];
    var avail := Section(AvailableTitle, AvailableEntries(c, FieldOrder));
    var newly := Section(NewlySetTitle, NewEntries(c, a, FieldOrder));
    assert StatusLines(c, a) == [Header] + l1 + avail + newly;
  }

  /** The first characters that tell the report's lines apart. */
  lemma LinesDiffer()
    ensures !Titled(Header, AvailableTitle) && !Titled(Header, NewlySetTitle) && Header != AuthNewlySetLine
    ensures !Titled(AuthNewlySetLine, AvailableTitle) && !Titled(AuthNewlySetLine, NewlySetTitle)
    ensures |AvailableTitle| > 1 && |AuthNewlySetLine| > 1 && |NewlySetTitle| > 0
    ensures AvailableTitle[1] != AuthNewlySetLine[1] && NewlySetTitle[0] != AuthNewlySetLine[0]
    ensures AvailableTitle[0] != NewlySetTitle[0]
  {
    assert Header[0] == 'M' && AuthNewlySetLine[0] == 'A' && AuthNewlySetLine[1] == 'u';
    assert AvailableTitle[0] == 'A' && AvailableTitle[1] == 'l' && NewlySetTitle[0] == 'N';
    DiffersAt(Header, AuthNewlySetLine, 0);
    DiffersAt(Header, AvailableTitle, 0);
    DiffersAt(Header, NewlySetTitle, 0);
    DiffersAt(AuthNewlySetLine, AvailableTitle, 1);
    DiffersAt(AuthNewlySetLine, NewlySetTitle, 0);
  }

  /** A report line equal to the handle line means there was no handle. */
  lemma AuthLineByText(c: AzureCtx, a: ContextArgs, i: nat)
    requires i < |StatusLines(c, a)|
    ensures StatusLines(c, a)[i] == AuthNewlySetLine ==> c.auth.None?
  {
    StatusLineKinds(c, a, i);
    LinesDiffer();
    SectionLine(AvailableTitle, AvailableEntries(c, FieldOrder), AuthNewlySetLine, 1);
    SectionLine(NewlySetTitle, NewEntries(c, a, FieldOrder), AuthNewlySetLine, 0);
  }

  /** A report line with the available title is that section's line. */
  lemma AvailableLineByText(c: AzureCtx, a: ContextArgs, i: nat)
    requires i < |StatusLines(c, a)|
    ensures Titled(StatusLines(c, a)[i], AvailableTitle) ==> AvailableEntries(c, FieldOrder) != []
  {
    StatusLineKinds(c, a, i);
    LinesDiffer();
    SectionLine(NewlySetTitle, NewEntries(c, a, FieldOrder), AvailableTitle, 0);
  }

  /** A report line with the newly-set title is that section's line. */
  lemma NewlySetLineByText(c: AzureCtx, a: ContextArgs, i: nat)
    requires i < |StatusLines(c, a)|
    ensures Titled(StatusLines(c, a)[i], NewlySetTitle) ==> NewEntries(c, a, FieldOrder) != []
  {
    StatusLineKinds(c, a, i);
    LinesDiffer();
    SectionLine(AvailableTitle, AvailableEntries(c, FieldOrder), NewlySetTitle, 0);
  }

  /** The handle line appears in the shared report iff there was no handle. */
  lemma StatusAuthLine(c: AzureCtx, a: ContextArgs)
    ensures AuthNewlySetLine in StatusLines(c, a) <==> c.auth.None?
  {
    var lines := StatusLines(c, a);
    if c.auth.None? {
      assert lines[1] == AuthNewlySetLine;
    }
    forall i | 0 <= i < |lines|
      ensures lines[i] == AuthNewlySetLine ==> c.auth.None?
    {
      AuthLineByText(c, a, i);
    }
  }

  /** A line titled "Already available: " appears iff some field was truthy. */
  lemma StatusAvailableTitle(c: AzureCtx, a: ContextArgs)
    ensures (exists i :: 0 <= i < |StatusLines(c, a)| && Titled(StatusLines(c, a)[i], AvailableTitle))
            <==> exists f :: Truthy(c.Get(f))
  {
    var lines := StatusLines(c, a);
    var entries := AvailableEntries(c, FieldOrder);
    SomeAvailable(c);
    if entries != [] {
      var l1: seq<string> := if c.auth.None? then [AuthNewlySetLine] else [];
      var avail := Section(AvailableTitle, entries);
      assert lines == [Header] + l1 + avail + Section(NewlySetTitle, NewEntries(c, a, FieldOrder));
      assert lines[1 + |l1|] == avail[0];
      LinesDiffer();
      SectionLine(AvailableTitle, entries, NewlySetTitle, 0);
    }
    forall i | 0 <= i < |lines|
      ensures Titled(lines[i], AvailableTitle) ==> entries != []
    {
      AvailableLineByText(c, a, i);
    }
  }

  /** A line titled "Newly set: " appears iff some falsy field was supplied. */
  lemma StatusNewlySetTitle(c: AzureCtx, a: ContextArgs)
    ensures (exists i :: 0 <= i < |StatusLines(c, a)| && Titled(StatusLines(c, a)[i], NewlySetTitle))
            <==> exists f :: !Truthy(c.Get(f)) && a.Get(f).Some?
  {
    var lines := StatusLines(c, a);
    var entries := NewEntries(c, a, FieldOrder);
    SomeNewlySet(c, a);
    if entries != [] {
      assert lines[|lines| - 1] == Section(NewlySetTitle, entries)[0];
      LinesDiffer();
      SectionLine(NewlySetTitle, entries, AvailableTitle, 0);
    }
    forall i | 0 <= i < |lines|
      ensures Titled(lines[i], NewlySetTitle) ==> entries != []
    {
      NewlySetLineByText(c, a, i);
    }
  }

  /** The line starts with the missing-fields title. */
  predicate MissingLine(s: string)
  {
    |s| >= |MissingTitle| && s[..|MissingTitle|] == MissingTitle
  }

  /** No line of `lines` is a missing-fields or all-available line. */
  predicate OmitsMissing(lines: seq<string>)
  {
    forall i :: 0 <= i < |lines| ==> lines[i] != AllAvailableLine && !MissingLine(lines[i])
  }

  lemma OmitsMissingConcat(xs: seq<string>, ys: seq<string>)
    requires OmitsMissing(xs) && OmitsMissing(ys)
    ensures OmitsMissing(xs + ys)
  {
    forall i | 0 <= i < |xs + ys|
      ensures (xs + ys)[i] != AllAvailableLine && !MissingLine((xs + ys)[i])
    {
      if i >= |xs| {
        assert (xs + ys)[i] == ys[i - |xs|];
      }
    }
  }

  /** A line whose first characters differ from both the missing-fields
      title and the all-available line is neither. */
  lemma DistinctStart(s: string, k: nat)
    requires k < 3 && k < |s|
    requires s[k] != MissingTitle[k] && s[k] != AllAvailableLine[k]
    ensures s != AllAvailableLine && !MissingLine(s)
  {
    if |s| >= |MissingTitle| {
      assert s[..|MissingTitle|][k] == s[k] != MissingTitle[k];
    }
  }

  lemma SectionOmitsMissing(title: string, items: seq<string>, k: nat)
    requires k < 3 && k < |title|
    requires title[k] != MissingTitle[k] && title[k] != AllAvailableLine[k]
    ensures OmitsMissing(Section(title, items))
  {
    if items != [] {
      var s := title + Join(items, ", ");
      assert s[k] == title[k];
      DistinctStart(s, k);
    }
  }

  /** The shared tool computes which fields are still missing but never
      reports it: none of its lines is a missing-fields or all-available line. */
  lemma SharedReportOmitsMissing(c: AzureCtx, a: ContextArgs)
    ensures OmitsMissing(StatusLines(c, a))
  {
    assert MissingTitle[0] == 'S' && AllAvailableLine[0] == 'A' && AllAvailableLine[1] == 'l' && AllAvailableLine[2] == 'l';
    assert MissingTitle[2] == 'i' && MissingTitle[1] == 't';
    var l0: seq<string> := [Header];
    var l1: seq<string> := if c.auth.None? then [AuthNewlySetLine] else [];
    assert Header[0] == 'M';
    DistinctStart(Header, 0);
    assert OmitsMissing(l0);
    assert AuthNewlySetLine[1] == 'u';
    DistinctStart(AuthNewlySetLine, 1);
    assert OmitsMissing(l1);
    assert AvailableTitle[2] == 'r';
    SectionOmitsMissing(AvailableTitle, AvailableEntries(c, FieldOrder), 2);
    assert NewlySetTitle[0] == 'N';
    SectionOmitsMissing(NewlySetTitle, NewEntries(c, a, FieldOrder), 0);
    OmitsMissingConcat(l0, l1);
    OmitsMissingConcat(l0 + l1, Section(AvailableTitle, AvailableEntries(c, FieldOrder)));
    OmitsMissingConcat(l0 + l1 + Section(AvailableTitle, AvailableEntries(c, FieldOrder)),
                       Section(NewlySetTitle, NewEntries(c, a, FieldOrder)));
  }

  lemma TriageLinesSingleLine(c: AzureCtx, a: ContextArgs, after: AzureCtx)
    requires SingleLineValues(c, a) && SingleLineValues(after, a)
    ensures SingleLines(TriageLines(c, a, after))
  {
    EntriesSingleLine(c, a, FieldOrder);
    EntriesSingleLine(after, a, FieldOrder);
    TriageLayoutSingleLine(AvailableEntries(c, FieldOrder), NewEntries(c, a, FieldOrder),
                           MissingLabels(after, FieldOrder), after.auth.Some?);
  }

  lemma TriageLayoutSingleLine(available: seq<string>, newlySet: seq<string>, missing: seq<string>, authSet: bool)
    requires SingleLines(available) && SingleLines(newlySet) && SingleLines(missing)
    ensures SingleLines(TriageLayout(available, newlySet, missing, authSet))
  {
    FixedTextSingleLine();
    var l0 := Section(AvailableTitle, available);
    var l1 := Section(NewlySetTitle, newlySet);
    var l2 := if missing != [] then Section(MissingTitle, missing) else [AllAvailableLine];
    var l3 := [if authSet then AuthInitializedLine else AuthNotInitializedLine];
    SectionSingleLine(AvailableTitle, available);
    SectionSingleLine(NewlySetTitle, newlySet);
    SectionSingleLine(MissingTitle, missing);
    assert SingleLines(l2) && SingleLines(l3);
    SingleLinesConcat(l0, l1);
    SingleLinesConcat(l0 + l1, l2);
    SingleLinesConcat(l0 + l1 + l2, l3);
  }

  /** The triage variant always leaves a handle, so its last line always
      reads "Authentication: Initialized"; it has no header line; and its
      message reads back line by line. */
  lemma TriageReportReadsBack(c: AzureCtx, a: ContextArgs, newAuth: AuthRef)
    requires SingleLineValues(c, a)
    ensures var r := TriageSetAzureContext(c, a, newAuth);
      var lines := TriageLines(c, a, r.ctx);
      && Split(r.message, '\n') == lines
      && lines[|lines| - 1] == AuthInitializedLine
      && lines[0] != Header
  {
    var r := TriageSetAzureContext(c, a, newAuth);
    VariantsAgreeOnContext(c, a, newAuth);
    TriageLinesReadBack(c, a, UpdatedContext(c, a, newAuth));
  }

  lemma TriageLinesReadBack(c: AzureCtx, a: ContextArgs, after: AzureCtx)
    requires SingleLineValues(c, a)
    requires forall f :: after.Get(f) == Merge(c.Get(f), a.Get(f))
    requires after.auth.Some?
    ensures var lines := TriageLines(c, a, after);
      && Split(Join(lines, "\n"), '\n') == lines
      && lines[|lines| - 1] == AuthInitializedLine
      && lines[0] != Header
  {
    assert SingleLineValues(after, a) by {
      forall f ensures after.Get(f).Some? ==> '\n' !in after.Get(f).value {
        assert after.Get(f) == Merge(c.Get(f), a.Get(f));
      }
    }
    TriageLinesSingleLine(c, a, after);
    SplitJoin(TriageLines(c, a, after), '\n');
    TriageFirstLineNotHeader(AvailableEntries(c, FieldOrder), NewEntries(c, a, FieldOrder),
                             MissingLabels(after, FieldOrder), after.auth.Some?);
  }

  lemma TriageFirstLineNotHeader(available: seq<string>, newlySet: seq<string>, missing: seq<string>, authSet: bool)
    ensures TriageLayout(available, newlySet, missing, authSet)[0] != Header
  {
    var s := TriageLayout(available, newlySet, missing, authSet)[0];
    assert Header[0] == 'M';
    if available != [] {
      assert s == AvailableTitle + Join(available, ", ");
      assert s[0] == AvailableTitle[0] == 'A';
    } else if newlySet != [] {
      assert s == NewlySetTitle + Join(newlySet, ", ");
      assert s[0] == NewlySetTitle[0] == 'N';
    } else if missing != [] {
      assert s == MissingTitle + Join(missing, ", ");
      assert s[0] == MissingTitle[0] == 'S';
    } else {
      assert s == AllAvailableLine;
      assert s[0] == 'A';
    }
  }

  /** The triage report's missing-fields line names exactly the fields that
      are still falsy after the update, and it is replaced by the
      all-available line when there are none. */
  lemma TriageMissingLine(c: AzureCtx, a: ContextArgs, newAuth: AuthRef, f: Field)
    ensures var r := TriageSetAzureContext(c, a, newAuth);
      && (Label(f) in MissingLabels(r.ctx, FieldOrder) <==> !Truthy(Merge(c.Get(f), a.Get(f))))
      && (MissingLabels(r.ctx, FieldOrder) == [] ==> AllAvailableLine in TriageLines(c, a, r.ctx))
  {
    var r := TriageSetAzureContext(c, a, newAuth);
    FieldOrderComplete(f);
    MissingLabelsMeaning(r.ctx, FieldOrder, f);
  }

  // ---------------------------------------------------------------------
  // Sequences of calls
  // ---------------------------------------------------------------------

  /** The context after calling either variant of the tool with each
      argument record of `calls` in turn (every call would create the handle
      `newAuth`); `VariantsAgreeOnContext` says one call leaves
      `UpdatedContext`. */
  function ApplyCalls(c: AzureCtx, calls: seq<ContextArgs>, newAuth: AuthRef): AzureCtx
    decreases |calls|
  {
    if |calls| == 0 then c
    else ApplyCalls(UpdatedContext(c, calls[0], newAuth), calls[1..], newAuth)
  }

  /** Index of the first truthy value of `vs`, if any. */
  function FirstTruthy(vs: seq<Option<string>>): (r: Option<nat>)
    ensures r.Some? ==> r.value < |vs| && Truthy(vs[r.value])
    ensures r.Some? ==> forall j :: 0 <= j < r.value ==> !Truthy(vs[j])
    ensures r.None? ==> forall j :: 0 <= j < |vs| ==> !Truthy(vs[j])
    decreases |vs|
  {
    if |vs| == 0 then None
    else if Truthy(vs[0]) then Some(0)
    else
      var rest := FirstTruthy(vs[1..]);
      if rest.Some? then Some(rest.value + 1) else None
  }

  /** The values field `f` is given by `calls`, in order. */
  function ArgsFor(calls: seq<ContextArgs>, f: Field): (vs: seq<Option<string>>)
    ensures |vs| == |calls|
    ensures forall i :: 0 <= i < |calls| ==> vs[i] == calls[i].Get(f)
  {
    seq(|calls|, i requires 0 <= i < |calls| => calls[i].Get(f))
  }

  /** Over any sequence of calls, a field that starts falsy ends with the
      first truthy value written to it, however many calls follow; a field
      that starts truthy never changes. */
  lemma {:induction false} FirstTruthyWriteWins(c: AzureCtx, calls: seq<ContextArgs>, newAuth: AuthRef, f: Field)
    ensures Truthy(c.Get(f)) ==> ApplyCalls(c, calls, newAuth).Get(f) == c.Get(f)
    ensures !Truthy(c.Get(f)) && FirstTruthy(ArgsFor(calls, f)).Some? ==>
            ApplyCalls(c, calls, newAuth).Get(f) == calls[FirstTruthy(ArgsFor(calls, f)).value].Get(f)
    decreases |calls|
  {
    if |calls| > 0 {
      var c1 := UpdatedContext(c, calls[0], newAuth);
      assert c1.Get(f) == Merge(c.Get(f), calls[0].Get(f));
      assert ApplyCalls(c, calls, newAuth) == ApplyCalls(c1, calls[1..], newAuth);
      FirstTruthyWriteWins(c1, calls[1..], newAuth, f);
      assert ArgsFor(calls[1..], f) == ArgsFor(calls, f)[1..];
    }
  }
}

/**
 * The rule decisions of Tsumiki.Analyzers/TimingAttributeAnalyzer.cs. A syntax node is
 * described by what the analyzer asks of the semantic model: the attributes of the
 * nearest enclosing method, the callee or created type, the assigned symbol's owner,
 * and the leading trivia. Each analysis returns the diagnostic it reports, if any.
 */
module TimingAttributeAnalyzer {
  import opened DiagnosticDescriptors

  /** TimingType: the timing an attribute list declares; Untimed is the source's TimingType.None. */
  datatype TimingType = Untimed | Init | Event | Audio

  datatype OptName = NoName | Name(value: string)

  const InitTimingAttributeName: string := "Tsumiki.Metadata.InitTimingAttribute"
  const EventTimingAttributeName: string := "Tsumiki.Metadata.EventTimingAttribute"
  const AudioTimingAttributeName: string := "Tsumiki.Metadata.AudioTimingAttribute"

  /** The timing one attribute's class name declares, Untimed for any other attribute. */
  function TimingOfName(n: OptName): (t: TimingType)
    ensures t == Init <==> n == Name(InitTimingAttributeName)
    ensures t == Event <==> n == Name(EventTimingAttributeName)
    ensures t == Audio <==> n == Name(AudioTimingAttributeName)
  {
    if n == Name(InitTimingAttributeName) then Init
    else if n == Name(EventTimingAttributeName) then Event
    else if n == Name(AudioTimingAttributeName) then Audio
    else Untimed
  }

  /** GetTimingAttribute: the timing of the first timing attribute in list order, Untimed when there is none. */
  function GetTimingAttribute(attributes: seq<OptName>): (t: TimingType)
    ensures t == Untimed <==> forall i :: 0 <= i < |attributes| ==> TimingOfName(attributes[i]) == Untimed
    ensures t != Untimed ==>
              exists i :: 0 <= i < |attributes| && TimingOfName(attributes[i]) == t &&
                          forall j :: 0 <= j < i ==> TimingOfName(attributes[j]) == Untimed
    decreases |attributes|
  {
    if attributes == [] then Untimed
    else if TimingOfName(attributes[0]) != Untimed then TimingOfName(attributes[0])
    else
      var t := GetTimingAttribute(attributes[1..]);
      assert forall i :: 1 <= i < |attributes| ==> attributes[i] == attributes[1..][i - 1];
      t
  }

  /** The first timing attribute decides, whatever follows it. */
  lemma {:induction false} FirstTimingAttributeWins(attributes: seq<OptName>, i: int)
    requires 0 <= i < |attributes| && TimingOfName(attributes[i]) != Untimed
    requires forall j :: 0 <= j < i ==> TimingOfName(attributes[j]) == Untimed
    ensures GetTimingAttribute(attributes) == TimingOfName(attributes[i])
    decreases i
  {
    if i > 0 {
      assert attributes[1..][i - 1] == attributes[i];
      FirstTimingAttributeWins(attributes[1..], i - 1);
    }
  }

  /** An ancestor in a node's syntax chain, nearest first. */
  datatype Ancestor = MethodDeclaration(attributes: seq<OptName>) | OtherNode

  /** GetContainingMethod: the attributes of the nearest enclosing method declaration. */
  function ContainingMethod(ancestors: seq<Ancestor>): (m: Option<seq<OptName>>)
    ensures m.Some? <==> exists i :: 0 <= i < |ancestors| && ancestors[i].MethodDeclaration?
    ensures m.Some? ==>
              exists i :: 0 <= i < |ancestors| && ancestors[i] == MethodDeclaration(m.value) &&
                          forall j :: 0 <= j < i ==> ancestors[j] == OtherNode
    decreases |ancestors|
  {
    if ancestors == [] then None
    else if ancestors[0].MethodDeclaration? then Some(ancestors[0].attributes)
    else
      var m := ContainingMethod(ancestors[1..]);
      assert forall i :: 1 <= i < |ancestors| ==> ancestors[i] == ancestors[1..][i - 1];
      m
  }

  datatype Option<T> = None | Some(value: T)

  /** The timing of the method enclosing a node, or nothing for a node outside every method. */
  function NodeTiming(ancestors: seq<Ancestor>): Option<TimingType>
  {
    match ContainingMethod(ancestors)
    case None => None
    case Some(attributes) => Some(GetTimingAttribute(attributes))
  }

  // ---------------------------------------------------------------- EVENT CALL comments

  /** String.Contains: sub occurs in s at some position. */
  function Contains(s: string, sub: string): (b: bool)
    decreases |s|
  {
    if |s| < |sub| then false else s[..|sub|] == sub || Contains(s[1..], sub)
  }

  /** sub occurs in s at index i. */
  predicate OccursAt(s: string, sub: string, i: int)
  {
    0 <= i && i + |sub| <= |s| && s[i..i + |sub|] == sub
  }

  /** Contains holds exactly when sub occurs at some index of s. */
  lemma {:induction false} ContainsAt(s: string, sub: string)
    ensures Contains(s, sub) <==> exists i :: OccursAt(s, sub, i)
    decreases |s|
  {
    if |s| < |sub| {
    } else if s[..|sub|] == sub {
      assert OccursAt(s, sub, 0);
    } else {
      ContainsAt(s[1..], sub);
      if Contains(s[1..], sub) {
        var i :| OccursAt(s[1..], sub, i);
        assert s[1..][i..i + |sub|] == s[i + 1..i + 1 + |sub|];
        assert OccursAt(s, sub, i + 1);
      }
      if exists i :: OccursAt(s, sub, i) {
        var i :| OccursAt(s, sub, i);
        assert i != 0;
        assert s[1..][i - 1..i - 1 + |sub|] == s[i..i + |sub|];
        assert OccursAt(s[1..], sub, i - 1);
      }
    }
  }

  datatype TriviaKind = SingleLineComment | MultiLineComment | OtherTrivia

  datatype Trivia = Trivia(kind: TriviaKind, text: string)

  predicate IsEventCallComment(t: Trivia)
  {
    (t.kind == SingleLineComment || t.kind == MultiLineComment) && Contains(t.text, "EVENT CALL")
  }

  /** CheckTriviaForEventCall: some comment in the list contains "EVENT CALL". */
  function CheckTriviaForEventCall(trivia: seq<Trivia>): (b: bool)
    ensures b <==> exists i :: 0 <= i < |trivia| && IsEventCallComment(trivia[i])
    decreases |trivia|
  {
    if trivia == [] then false
    else if IsEventCallComment(trivia[0]) then true
    else
      var b := CheckTriviaForEventCall(trivia[1..]);
      assert forall i :: 1 <= i < |trivia| ==> trivia[i] == trivia[1..][i - 1];
      b
  }

  /** HasEventCallComment: the comment is on the invocation's own leading trivia or on its parent's. */
  function HasEventCallComment(leading: seq<Trivia>, parentLeading: Option<seq<Trivia>>): (b: bool)
    ensures b <==> (exists i :: 0 <= i < |leading| && IsEventCallComment(leading[i])) ||
                   (parentLeading.Some? && exists i :: 0 <= i < |parentLeading.value| && IsEventCallComment(parentLeading.value[i]))
  {
    CheckTriviaForEventCall(leading) || (parentLeading.Some? && CheckTriviaForEventCall(parentLeading.value))
  }

  // ---------------------------------------------------------------- the three analyses

  /** Every rule belongs to exactly one of the three analyses: calls, creations, assignments. */
  function AnalysisOf(r: Rule): (k: int)
    ensures 0 <= k < 3
  {
    match r
    case EventTimingCallsInitTiming => 0
    case AudioTimingCallsInitTiming => 0
    case AudioTimingCallsEventTiming => 0
    case AudioTimingAllocatesHeap => 1
    case EventTimingAllocatesHeap => 1
    case EventTimingModifiesInitTimingField => 2
    case AudioTimingModifiesInitTimingField => 2
    case AudioTimingModifiesEventTimingField => 2
  }

  /** CheckMethodCallViolation: the diagnostic for a call between two timed methods. */
  function CheckMethodCallViolation(callerTiming: TimingType, calleeTiming: TimingType, hasEventCallComment: bool): Option<Rule>
  {
    if callerTiming == Event && calleeTiming == Init then Some(EventTimingCallsInitTiming)
    else if callerTiming == Audio && calleeTiming == Init then Some(AudioTimingCallsInitTiming)
    else if callerTiming == Audio && calleeTiming == Event && !hasEventCallComment then Some(AudioTimingCallsEventTiming)
    else None
  }

  /** An invocation: its ancestors, the callee's attributes when it resolves to a method, and its trivia. */
  datatype Invocation = Invocation(ancestors: seq<Ancestor>, callee: Option<seq<OptName>>,
                                   leading: seq<Trivia>, parentLeading: Option<seq<Trivia>>)

  /** AnalyzeInvocation: nothing unless both caller and callee are timed, otherwise the call rule. */
  function AnalyzeInvocation(inv: Invocation): Option<Rule>
  {
    match NodeTiming(inv.ancestors)
    case None => None
    case Some(callerTiming) =>
      if callerTiming == Untimed then None
      else
        match inv.callee
        case None => None
        case Some(attributes) =>
          var calleeTiming := GetTimingAttribute(attributes);
          if calleeTiming == Untimed then None
          else CheckMethodCallViolation(callerTiming, calleeTiming, HasEventCallComment(inv.leading, inv.parentLeading))
  }

  /** The callee's timing when the invocation names a timed method. */
  function CalleeTiming(inv: Invocation): TimingType
  {
    match inv.callee
    case None => Untimed
    case Some(attributes) => GetTimingAttribute(attributes)
  }

  /**
   * The call rules in full: an event method calling an init method gets TSK001, an
   * audio method calling an init method TSK003, an audio method calling an event method
   * TSK102 unless the call carries an EVENT CALL comment; every other invocation, in
   * particular one outside a method or with an untimed caller or callee, gets nothing.
   */
  lemma CallRules(inv: Invocation)
    ensures var caller := NodeTiming(inv.ancestors);
            var callee := CalleeTiming(inv);
            var d := AnalyzeInvocation(inv);
            (d == Some(EventTimingCallsInitTiming) <==> caller == Some(Event) && callee == Init) &&
            (d == Some(AudioTimingCallsInitTiming) <==> caller == Some(Audio) && callee == Init) &&
            (d == Some(AudioTimingCallsEventTiming) <==>
               caller == Some(Audio) && callee == Event && !HasEventCallComment(inv.leading, inv.parentLeading)) &&
            (d.Some? ==> AnalysisOf(d.value) == 0)
  {
  }

  /** A call diagnostic is an error exactly when the callee is an init method. */
  lemma CallSeverity(inv: Invocation)
    requires AnalyzeInvocation(inv).Some?
    ensures DescriptorOf(AnalyzeInvocation(inv).value).severity == Error <==> CalleeTiming(inv) == Init
  {
  }

  datatype TypeKind = Class | Interface | Delegate | Struct | Enum | OtherKind

  /** Classes, interfaces and delegates live on the heap; other kinds are value types. */
  predicate IsReferenceKind(k: TypeKind)
  {
    k == Class || k == Interface || k == Delegate
  }

  /** An object creation: its ancestors and the created type's kind when it resolves. */
  datatype Creation = Creation(ancestors: seq<Ancestor>, typeKind: Option<TypeKind>)

  /** AnalyzeObjectCreation: `new` of a reference type is TSK005 in audio methods and TSK101 in event methods. */
  function AnalyzeObjectCreation(c: Creation): Option<Rule>
  {
    match NodeTiming(c.ancestors)
    case None => None
    case Some(timing) =>
      match c.typeKind
      case None => None
      case Some(kind) =>
        if !IsReferenceKind(kind) then None
        else if timing == Audio then Some(AudioTimingAllocatesHeap)
        else if timing == Event then Some(EventTimingAllocatesHeap)
        else None
  }

  /** Creation diagnostics: exactly the reference-type creations inside audio or event methods. */
  lemma CreationRules(c: Creation)
    ensures var d := AnalyzeObjectCreation(c);
            var referenceType := c.typeKind.Some? && IsReferenceKind(c.typeKind.value);
            (d == Some(AudioTimingAllocatesHeap) <==> NodeTiming(c.ancestors) == Some(Audio) && referenceType) &&
            (d == Some(EventTimingAllocatesHeap) <==> NodeTiming(c.ancestors) == Some(Event) && referenceType) &&
            (d.Some? ==> AnalysisOf(d.value) == 1)
  {
  }

  /** What an assignment's left side resolves to. */
  datatype Target = FieldOrProperty(containingType: Option<seq<OptName>>) | OtherSymbol | Unresolved

  datatype Assignment = Assignment(ancestors: seq<Ancestor>, target: Target)

  /** CheckFieldModificationViolation: the diagnostic for a timed method writing a member of a timed type. */
  function CheckFieldModificationViolation(methodTiming: TimingType, typeTiming: TimingType): Option<Rule>
  {
    if methodTiming == Event && typeTiming == Init then Some(EventTimingModifiesInitTimingField)
    else if methodTiming == Audio && typeTiming == Init then Some(AudioTimingModifiesInitTimingField)
    else if methodTiming == Audio && typeTiming == Event then Some(AudioTimingModifiesEventTimingField)
    else None
  }

  /** AnalyzeAssignment: only event and audio methods, only fields and properties of timed types. */
  function AnalyzeAssignment(a: Assignment): Option<Rule>
  {
    match NodeTiming(a.ancestors)
    case None => None
    case Some(methodTiming) =>
      if methodTiming == Untimed || methodTiming == Init then None
      else
        match a.target
        case FieldOrProperty(owner) =>
          (match owner
           case None => None
           case Some(attributes) =>
             var typeTiming := GetTimingAttribute(attributes);
             if typeTiming == Untimed then None
             else CheckFieldModificationViolation(methodTiming, typeTiming))
        case OtherSymbol => None
        case Unresolved => None
  }

  function OwnerTiming(a: Assignment): TimingType
  {
    match a.target
    case FieldOrProperty(Some(attributes)) => GetTimingAttribute(attributes)
    case _ => Untimed
  }

  /**
   * The assignment rules: event writing init is TSK002, audio writing init TSK004,
   * audio writing event TSK103 (no comment exempts it); nothing else is reported.
   */
  lemma AssignmentRules(a: Assignment)
    ensures var m := NodeTiming(a.ancestors);
            var d := AnalyzeAssignment(a);
            (d == Some(EventTimingModifiesInitTimingField) <==> m == Some(Event) && OwnerTiming(a) == Init) &&
            (d == Some(AudioTimingModifiesInitTimingField) <==> m == Some(Audio) && OwnerTiming(a) == Init) &&
            (d == Some(AudioTimingModifiesEventTimingField) <==> m == Some(Audio) && OwnerTiming(a) == Event) &&
            (d.Some? ==> AnalysisOf(d.value) == 2)
  {
  }

  /** Init and untimed methods, and nodes outside every method, are never reported. */
  lemma UnrestrictedContexts(ancestors: seq<Ancestor>, inv: Invocation, c: Creation, a: Assignment)
    requires inv.ancestors == ancestors && c.ancestors == ancestors && a.ancestors == ancestors
    requires NodeTiming(ancestors) == None || NodeTiming(ancestors) == Some(Untimed) || NodeTiming(ancestors) == Some(Init)
    ensures AnalyzeInvocation(inv) == None && AnalyzeObjectCreation(c) == None && AnalyzeAssignment(a) == None
  {
  }

  /** SupportedDiagnostics, in declaration order. */
  const SupportedDiagnostics: seq<Rule> := [
    EventTimingCallsInitTiming,
    EventTimingModifiesInitTimingField,
    AudioTimingCallsInitTiming,
    AudioTimingModifiesInitTimingField,
    AudioTimingAllocatesHeap,
    EventTimingAllocatesHeap,
    AudioTimingCallsEventTiming,
    AudioTimingModifiesEventTimingField
  ]

  /** SupportedDiagnostics lists every rule exactly once. */
  lemma SupportedDiagnosticsComplete(r: Rule)
    ensures r in SupportedDiagnostics
    ensures |SupportedDiagnostics| == 8
    ensures forall i, j :: 0 <= i < j < |SupportedDiagnostics| ==> SupportedDiagnostics[i] != SupportedDiagnostics[j]
  {
  }
}

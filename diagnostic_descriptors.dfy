/**
 * The diagnostic descriptors of Tsumiki.Analyzers/DiagnosticDescriptors.cs: one per
 * timing rule, with its id, severity, category and default enablement. Titles and
 * message formats are display text and are not part of this model.
 */
module DiagnosticDescriptors {

  datatype Severity = Error | Warning

  datatype Descriptor = Descriptor(id: string, category: string, severity: Severity, isEnabledByDefault: bool)

  /** The eight timing rules, one per descriptor field. */
  datatype Rule =
    | EventTimingCallsInitTiming
    | EventTimingModifiesInitTimingField
    | AudioTimingCallsInitTiming
    | AudioTimingModifiesInitTimingField
    | AudioTimingAllocatesHeap
    | EventTimingAllocatesHeap
    | AudioTimingCallsEventTiming
    | AudioTimingModifiesEventTimingField

  const Category: string := "Tsumiki.Timing"

  /** The TSK number behind each id: 1 to 5 for the errors, 101 to 103 for the warnings. */
  function IdNumber(r: Rule): (n: int)
    ensures 1 <= n <= 5 || 101 <= n <= 103
  {
    match r
    case EventTimingCallsInitTiming => 1
    case EventTimingModifiesInitTimingField => 2
    case AudioTimingCallsInitTiming => 3
    case AudioTimingModifiesInitTimingField => 4
    case AudioTimingAllocatesHeap => 5
    case EventTimingAllocatesHeap => 101
    case AudioTimingCallsEventTiming => 102
    case AudioTimingModifiesEventTimingField => 103
  }

  /** The descriptor of a rule. */
  function DescriptorOf(r: Rule): (d: Descriptor)
    ensures d.category == Category && d.isEnabledByDefault
    ensures |d.id| == 6 && d.id[..3] == "TSK"
  {
    match r
    case EventTimingCallsInitTiming => Descriptor("TSK001", Category, Error, true)
    case EventTimingModifiesInitTimingField => Descriptor("TSK002", Category, Error, true)
    case AudioTimingCallsInitTiming => Descriptor("TSK003", Category, Error, true)
    case AudioTimingModifiesInitTimingField => Descriptor("TSK004", Category, Error, true)
    case AudioTimingAllocatesHeap => Descriptor("TSK005", Category, Error, true)
    case EventTimingAllocatesHeap => Descriptor("TSK101", Category, Warning, true)
    case AudioTimingCallsEventTiming => Descriptor("TSK102", Category, Warning, true)
    case AudioTimingModifiesEventTimingField => Descriptor("TSK103", Category, Warning, true)
  }

  /** The three digits of an id read as a number. */
  function DigitsOf(id: string): int
    requires |id| == 6
  {
    var d := (c: char) => (c as int) - ('0' as int);
    100 * d(id[3]) + 10 * d(id[4]) + d(id[5])
  }

  /** Each id spells its rule's TSK number, and the 0xx ids are exactly the errors. */
  lemma IdsSpellNumbers(r: Rule)
    ensures DigitsOf(DescriptorOf(r).id) == IdNumber(r)
    ensures DescriptorOf(r).severity == Error <==> IdNumber(r) < 100
    ensures DescriptorOf(r).severity == Warning <==> 101 <= IdNumber(r) <= 103
  {
  }

  /** No two rules share an id. */
  lemma IdsDistinct(r1: Rule, r2: Rule)
    ensures DescriptorOf(r1).id == DescriptorOf(r2).id ==> r1 == r2
  {
    if DescriptorOf(r1).id == DescriptorOf(r2).id {
      IdsSpellNumbers(r1);
      IdsSpellNumbers(r2);
    }
  }
}

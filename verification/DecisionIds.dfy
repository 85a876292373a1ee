/** The decision identifiers of a run, and why they never repeat. */
module DecisionIds {
  import opened Text

  datatype IdPrefix = PermissionId | ToolTrustId | RuntimeId | WorkflowId | DeclineId

  function PrefixText(prefix: IdPrefix): string {
    match prefix
    case PermissionId => "permission"
    case ToolTrustId => "tool-trust"
    case RuntimeId => "runtime"
    case WorkflowId => "workflow"
    case DeclineId => "decline"
  }

  /** The longest run of digits at the end of a text. */
  function TrailingDigits(s: string): string {
    if s == "" || !IsDigit(s[|s| - 1]) then "" else TrailingDigits(s[..|s| - 1]) + [s[|s| - 1]]
  }

  lemma {:induction false} TrailingDigitsOfNumeral(stem: string, numeral: string)
    requires stem == "" || !IsDigit(stem[|stem| - 1])
    requires forall i | 0 <= i < |numeral| :: IsDigit(numeral[i])
    ensures TrailingDigits(stem + numeral) == numeral
    decreases |numeral|
  {
    var s := stem + numeral;
    if numeral == "" {
      assert s == stem;
    } else {
      var shorter := numeral[..|numeral| - 1];
      assert s[..|s| - 1] == stem + shorter;
      TrailingDigitsOfNumeral(stem, shorter);
      assert numeral == shorter + [numeral[|numeral| - 1]];
    }
  }

  /** The identifier of a gate decision: the position of its event is its last number. */
  function DecisionId(effectSequence: nat, prefix: IdPrefix, event: nat): (id: string)
    ensures NonBlank(id) && TrailingDigits(id) == Decimal(event)
  {
    var stem := "decision-" + Decimal(effectSequence) + "-" + PrefixText(prefix) + "-event-";
    var id := stem + Decimal(event);
    assert stem[|stem| - 1] == '-';
    TrailingDigitsOfNumeral(stem, Decimal(event));
    assert id[0] == 'd';
    id
  }

  function CompletionId(): (id: string)
    ensures NonBlank(id) && TrailingDigits(id) == ""
  {
    "decision-completion"
  }

  /** The identifier names one of the first `n` events, or is the completion decision's. */
  ghost predicate IsUsed(id: string, n: nat) {
    id == CompletionId() || exists k | 0 < k <= n :: TrailingDigits(id) == Decimal(k)
  }

  lemma CompletionIdIsUsed(n: nat)
    ensures IsUsed(CompletionId(), n)
  {
  }

  lemma UsedPersists(id: string, n: nat)
    requires IsUsed(id, n)
    ensures IsUsed(id, n + 1)
  {
    if id != CompletionId() {
      var k :| 0 < k <= n && TrailingDigits(id) == Decimal(k);
      assert 0 < k <= n + 1;
    }
  }

  /** An identifier that names a later event is fresh. */
  lemma NumberedIsFresh(ids: set<string>, n: nat, id: string)
    requires forall other | other in ids :: IsUsed(other, n)
    requires TrailingDigits(id) == Decimal(n + 1)
    ensures id !in ids && id != CompletionId() && IsUsed(id, n + 1)
  {
    if id in ids {
      var k :| 0 < k <= n && TrailingDigits(id) == Decimal(k);
      DecimalInjective(k, n + 1);
    }
  }
}

/**
 * The order-status state machine of the constants module: the six states, their
 * Spanish labels, the colour table (keyed by state name and, as a fallback, by
 * label) and the transition table that decides which next states the UI offers.
 */
module OrderStates {

  import opened Wrappers

  datatype OrderState = Pending | Confirmed | Preparing | Shipped | Delivered | Cancelled

  /** `ORDER_STATES`, in declaration order. */
  const OrderStateNames: seq<string> :=
    ["PENDING", "CONFIRMED", "PREPARING", "SHIPPED", "DELIVERED", "CANCELLED"]

  /** The backend enum value of a state. */
  function Name(s: OrderState): string {
    match s
    case Pending => "PENDING"
    case Confirmed => "CONFIRMED"
    case Preparing => "PREPARING"
    case Shipped => "SHIPPED"
    case Delivered => "DELIVERED"
    case Cancelled => "CANCELLED"
  }

  /** The state a backend enum value names, if any (the lookup is case-sensitive). */
  function Parse(name: string): (r: Option<OrderState>)
    ensures r.Some? ==> Name(r.value) == name
    ensures r.None? <==> name !in OrderStateNames
  {
    if name == "PENDING" then Some(Pending)
    else if name == "CONFIRMED" then Some(Confirmed)
    else if name == "PREPARING" then Some(Preparing)
    else if name == "SHIPPED" then Some(Shipped)
    else if name == "DELIVERED" then Some(Delivered)
    else if name == "CANCELLED" then Some(Cancelled)
    else None
  }

  function Names(ss: seq<OrderState>): (r: seq<string>)
    ensures |r| == |ss| && forall i :: 0 <= i < |ss| ==> r[i] == Name(ss[i])
  {
    seq(|ss|, i requires 0 <= i < |ss| => Name(ss[i]))
  }

  /** `ORDER_STATE_LABELS`. */
  const StateLabels: map<string, string> := map[
    "PENDING" := "Pendiente", "CONFIRMED" := "Confirmado", "PREPARING" := "Preparando",
    "SHIPPED" := "Enviado", "DELIVERED" := "Entregado", "CANCELLED" := "Cancelado"]

  /** `STATE_TRANSITIONS`, keyed by backend enum value. */
  const StateTransitions: map<string, seq<string>> := map[
    "PENDING" := ["CONFIRMED", "CANCELLED"],
    "CONFIRMED" := ["PREPARING", "CANCELLED"],
    "PREPARING" := ["SHIPPED", "CANCELLED"],
    "SHIPPED" := ["DELIVERED"],
    "DELIVERED" := [],
    "CANCELLED" := []]

  datatype Colors = Colors(bg: string, text: string, dot: string)

  /** `STATE_COLORS`: one entry per enum value and the same colours again under each label. */
  const StateColors: map<string, Colors> := map[
    "PENDING" := Colors("#FEF3C7", "#92400E", "#F59E0B"),
    "CONFIRMED" := Colors("#D1FAE5", "#065F46", "#10B981"),
    "PREPARING" := Colors("#DBEAFE", "#1E40AF", "#3B82F6"),
    "SHIPPED" := Colors("#EDE9FE", "#5B21B6", "#8B5CF6"),
    "DELIVERED" := Colors("#D1FAE5", "#064E3B", "#059669"),
    "CANCELLED" := Colors("#FEE2E2", "#991B1B", "#EF4444"),
    "Pendiente" := Colors("#FEF3C7", "#92400E", "#F59E0B"),
    "Confirmado" := Colors("#D1FAE5", "#065F46", "#10B981"),
    "Preparando" := Colors("#DBEAFE", "#1E40AF", "#3B82F6"),
    "Enviado" := Colors("#EDE9FE", "#5B21B6", "#8B5CF6"),
    "Entregado" := Colors("#D1FAE5", "#064E3B", "#059669"),
    "Cancelado" := Colors("#FEE2E2", "#991B1B", "#EF4444")]

  /** The transition table read as a function on states. */
  function Successors(s: OrderState): seq<OrderState> {
    match s
    case Pending => [Confirmed, Cancelled]
    case Confirmed => [Preparing, Cancelled]
    case Preparing => [Shipped, Cancelled]
    case Shipped => [Delivered]
    case Delivered => []
    case Cancelled => []
  }

  predicate IsTerminal(s: OrderState) {
    Successors(s) == []
  }

  /** The six names are distinct, and the table has exactly them as keys. */
  lemma StateNamesDistinct()
    ensures |OrderStateNames| == 6
    ensures forall i, j :: 0 <= i < j < 6 ==> OrderStateNames[i] != OrderStateNames[j]
    ensures StateTransitions.Keys == set s | s in OrderStateNames
  {
  }

  /** The string table and the typed successor function say the same thing. */
  lemma TransitionTableAgrees(s: OrderState)
    ensures Name(s) in StateTransitions
    ensures StateTransitions[Name(s)] == Names(Successors(s))
  {
  }

  /** Every successor listed in the table is itself one of `ORDER_STATES`. */
  lemma SuccessorsAreStates()
    ensures forall k, i :: k in StateTransitions && 0 <= i < |StateTransitions[k]| ==>
      StateTransitions[k][i] in OrderStateNames
  {
  }

  /** Every state has a label and a colour entry, and its label key carries the same colours. */
  lemma LabelsAndColoursTotal(s: OrderState)
    ensures Name(s) in StateLabels && Name(s) in StateColors
    ensures StateLabels[Name(s)] in StateColors
    ensures StateColors[StateLabels[Name(s)]] == StateColors[Name(s)]
  {
  }

  /** DELIVERED and CANCELLED are terminal, and they are the only terminal states. */
  lemma TerminalStates(s: OrderState)
    ensures IsTerminal(s) <==> s == Delivered || s == Cancelled
  {
  }

  /** An order can be cancelled directly from PENDING, CONFIRMED and PREPARING, never from SHIPPED;
      where cancelling is offered it is the last choice. */
  lemma CancelRule(s: OrderState)
    ensures Cancelled in Successors(s) <==> s in {Pending, Confirmed, Preparing}
    ensures Cancelled in Successors(s) ==> Successors(s)[|Successors(s)| - 1] == Cancelled
    ensures Successors(Shipped) == [Delivered]
  {
  }

  /** Position of a state along the lifecycle; every transition raises it. */
  function Rank(s: OrderState): nat {
    match s
    case Pending => 0
    case Confirmed => 1
    case Preparing => 2
    case Shipped => 3
    case Delivered => 4
    case Cancelled => 4
  }

  lemma SuccessorRaisesRank(s: OrderState, t: OrderState)
    requires t in Successors(s)
    ensures Rank(t) == Rank(s) + 1 || t == Cancelled
    ensures Rank(t) > Rank(s) && t != s
  {
  }

  /** Consecutive states of `p` follow the transition table. */
  predicate IsPath(p: seq<OrderState>) {
    forall i :: 0 <= i < |p| - 1 ==> p[i + 1] in Successors(p[i])
  }

  /** Along a path the rank grows by at least one per step. */
  lemma {:induction false} PathRanks(p: seq<OrderState>)
    requires IsPath(p) && |p| > 0
    ensures forall i :: 0 <= i < |p| ==> Rank(p[i]) >= Rank(p[0]) + i
    decreases |p|
  {
    if |p| > 1 {
      var q := p[..|p| - 1];
      assert IsPath(q);
      PathRanks(q);
      SuccessorRaisesRank(p[|p| - 2], p[|p| - 1]);
    }
  }

  /** The graph is acyclic: no path visits a state twice. */
  lemma PathIsSimple(p: seq<OrderState>)
    requires IsPath(p)
    ensures forall i, j :: 0 <= i < j < |p| ==> p[i] != p[j]
  {
    forall i, j | 0 <= i < j < |p| ensures p[i] != p[j] {
      var q := p[i..];
      assert IsPath(q);
      PathRanks(q);
      assert q[j - i] == p[j];
    }
  }

  /** A path from PENDING takes at most four steps, and one of four steps ends DELIVERED. */
  lemma PathFromPendingBounded(p: seq<OrderState>)
    requires IsPath(p) && |p| > 0 && p[0] == Pending
    ensures |p| <= 5
    ensures |p| == 5 ==> p[4] == Delivered
  {
    PathRanks(p);
    assert Rank(p[|p| - 1]) >= |p| - 1;
    if |p| == 5 {
      assert Rank(p[3]) == 3 && p[3] == Shipped;
      assert p[4] in Successors(p[3]);
    }
  }

  /** A path that cannot be extended ends in DELIVERED or CANCELLED. */
  lemma MaximalPathEndsTerminal(p: seq<OrderState>)
    requires IsPath(p) && |p| > 0
    ensures (forall t :: !IsPath(p + [t])) ==> p[|p| - 1] == Delivered || p[|p| - 1] == Cancelled
  {
    var last := p[|p| - 1];
    if Successors(last) != [] {
      var t := Successors(last)[0];
      forall i | 0 <= i < |p + [t]| - 1 ensures (p + [t])[i + 1] in Successors((p + [t])[i]) {
        if i < |p| - 1 {
          assert (p + [t])[i + 1] == p[i + 1] && (p + [t])[i] == p[i];
        }
      }
      assert IsPath(p + [t]);
    }
  }
}

/** The checkout stepper: three fixed steps, the position of the current one,
    and how each step is drawn relative to it (completed steps become links,
    the current one is marked, connectors light up behind the current step). */
module CheckoutSteps {
  import opened Wrappers
  import opened Text

  datatype StepKey = Bag | Identification | Payment

  datatype Step = Step(key: StepKey, caption: string, href: string)

  /** `STEPS`, in checkout order. */
  const Steps: seq<Step> := [
    Step(Bag, "Sacola", "/cart"),
    Step(Identification, "Identifica\U{E7}\U{E3}o", "/cart/identification"),
    Step(Payment, "Pagamento", "/cart/confirmation")
  ]

  /** `findIndex`: the first position holding `k`, or -1 when there is none. */
  function FindIndex(steps: seq<Step>, k: StepKey): (i: int)
    ensures -1 <= i < |steps|
    ensures i >= 0 ==> steps[i].key == k
    ensures forall j :: 0 <= j < |steps| && (i == -1 || j < i) ==> steps[j].key != k
  {
    if |steps| == 0 then -1
    else if steps[0].key == k then 0
    else
      var r := FindIndex(steps[1..], k);
      if r == -1 then -1 else r + 1
  }

  /** `currentIndex`. */
  function CurrentIndex(current: StepKey): (i: int)
    ensures 0 <= i < |Steps| && Steps[i].key == current
  {
    assert Steps[0].key == Bag && Steps[1].key == Identification && Steps[2].key == Payment;
    FindIndex(Steps, current)
  }

  /** Every key has its own place: bag first, identification second, payment
      last, so `currentIndex` is never -1. */
  lemma CurrentIndexValues()
    ensures CurrentIndex(Bag) == 0
    ensures CurrentIndex(Identification) == 1
    ensures CurrentIndex(Payment) == 2
  {
    assert Steps[0].key == Bag && Steps[1].key == Identification && Steps[2].key == Payment;
  }

  lemma CurrentIndexInRange(current: StepKey)
    ensures 0 <= CurrentIndex(current) < |Steps|
    ensures Steps[CurrentIndex(current)].key == current
  {
    CurrentIndexValues();
  }

  datatype Status = Completed | Current | Pending

  /** `isCompleted` (`idx < currentIndex`) and `isCurrent` (`idx === currentIndex`). */
  function StatusOf(idx: int, currentIndex: int): (s: Status)
    ensures s == Completed <==> idx < currentIndex
    ensures s == Current <==> idx == currentIndex
    ensures s == Pending <==> idx > currentIndex
  {
    if idx < currentIndex then Completed
    else if idx == currentIndex then Current
    else Pending
  }

  /** How one step is drawn: the badge (a check mark or the 1-based number),
      the label, a link when completed, the `aria-current` marker, and the
      connector after it (absent after the last step; highlighted or not). */
  datatype Marker = Check | Number(n: nat)

  datatype StepView = StepView(
    marker: Marker,
    caption: string,
    ariaLabel: string,
    status: Status,
    link: Option<string>,
    ariaCurrent: bool,
    connector: Option<bool>)

  function ViewOf(steps: seq<Step>, idx: nat, currentIndex: int): (v: StepView)
    requires idx < |steps|
    ensures v.link.Some? <==> idx < currentIndex
    ensures v.link.Some? ==> v.link.value == steps[idx].href
    ensures v.marker == Check <==> idx < currentIndex
    ensures v.marker.Number? ==> v.marker.n == idx + 1
    ensures v.ariaCurrent <==> idx == currentIndex
    ensures v.connector.None? <==> idx == |steps| - 1
    ensures v.connector == Some(true) <==> idx < currentIndex && idx != |steps| - 1
  {
    var status := StatusOf(idx, currentIndex);
    StepView(
      marker := if status == Completed then Check else Number(idx + 1),
      caption := steps[idx].caption,
      ariaLabel := DecimalString(idx + 1) + " " + steps[idx].caption
                   + (if status == Current then " (etapa atual)" else ""),
      status := status,
      link := if status == Completed then Some(steps[idx].href) else None,
      ariaCurrent := status == Current,
      connector := if idx != |steps| - 1 then Some(idx < currentIndex) else None)
  }

  /** The rendered stepper for `current`. */
  function Render(current: StepKey): (r: seq<StepView>)
    ensures |r| == |Steps|
    ensures forall i :: 0 <= i < |r| ==> r[i] == ViewOf(Steps, i, CurrentIndex(current))
  {
    var ci := CurrentIndex(current);
    seq(|Steps|, i requires 0 <= i < |Steps| => ViewOf(Steps, i, ci))
  }

  /** Only completed steps link back, each to its own page; only the current
      step carries `aria-current`; a connector follows every step but the last
      and is highlighted exactly behind the current step. */
  lemma RenderShape(current: StepKey, i: nat)
    requires i < |Steps|
    ensures var v := Render(current)[i]; var ci := CurrentIndex(current);
      && (v.link.Some? <==> i < ci)
      && (v.link.Some? ==> v.link.value == Steps[i].href)
      && (v.ariaCurrent <==> Steps[i].key == current)
      && (v.connector.Some? <==> i < |Steps| - 1)
      && (v.connector == Some(true) <==> i < ci)
      && (v.marker == Check <==> i < ci)
  {
    CurrentIndexValues();
  }

  /** How many of `views` have status `s`. */
  function CountStatus(views: seq<StepView>, s: Status): (n: nat)
    ensures n <= |views|
  {
    if |views| == 0 then 0
    else (if views[0].status == s then 1 else 0) + CountStatus(views[1..], s)
  }

  /** Over any step list, the number of completed steps is the current index,
      and exactly one step is current. */
  lemma {:induction false} CountsOfViews(steps: seq<Step>, from: nat, currentIndex: nat)
    requires from <= |steps| && currentIndex < |steps|
    ensures var vs := seq(|steps| - from, i requires 0 <= i < |steps| - from => ViewOf(steps, from + i, currentIndex));
      && CountStatus(vs, Completed) == (if currentIndex > from then currentIndex - from else 0)
      && CountStatus(vs, Current) == (if currentIndex >= from then 1 else 0)
    decreases |steps| - from
  {
    var vs := seq(|steps| - from, i requires 0 <= i < |steps| - from => ViewOf(steps, from + i, currentIndex));
    if from < |steps| {
      CountsOfViews(steps, from + 1, currentIndex);
      var rest := seq(|steps| - (from + 1), i requires 0 <= i < |steps| - (from + 1) => ViewOf(steps, from + 1 + i, currentIndex));
      assert vs[1..] == rest;
      assert vs[0] == ViewOf(steps, from, currentIndex);
    }
  }

  /** The number of completed steps equals `currentIndex`, and exactly one step
      is current. */
  lemma CompletedCountIsCurrentIndex(current: StepKey)
    ensures CountStatus(Render(current), Completed) == CurrentIndex(current)
    ensures CountStatus(Render(current), Current) == 1
  {
    CurrentIndexInRange(current);
    CountsOfViews(Steps, 0, CurrentIndex(current));
    assert Render(current) == seq(|Steps| - 0, i requires 0 <= i < |Steps| - 0 => ViewOf(Steps, 0 + i, CurrentIndex(current)));
  }
}

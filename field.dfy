/** The content decisions of the form-field helpers: what `FieldError` shows
    in its alert, and whether `FieldSeparator` flags and shows its label. */
module Field {
  import opened Js

  /** One entry of the `errors` prop: `{ message?: string }`. */
  datatype FieldIssue = FieldIssue(message: Option<string>)

  /** The `errors` prop: a list whose entries may themselves be `undefined`. */
  type Errors = seq<Option<FieldIssue>>

  /** `error?.message` is truthy: the entry is there, has a message, and the
      message is not the empty string. */
  predicate HasMessage(e: Option<FieldIssue>) {
    e.Some? && e.value.message.Some? && e.value.message.value != ""
  }

  function MessageOf(e: Option<FieldIssue>): (m: string)
    requires HasMessage(e)
    ensures m != ""
  {
    e.value.message.value
  }

  /** What `FieldError` puts inside its alert. */
  datatype Content =
    | ChildContent(node: Node)       // the caller's own children
    | NoContent                      // `null`
    | SingleMessage(text: string)    // one message string, no list
    | MessageList(items: seq<string>) // a `<ul>` of `<li>` messages

  /** The `<li>` texts of the message list: `errors.map(e => e?.message && <li>)`,
      where a falsy `e?.message` leaves a hole that React renders as nothing. */
  function ListItems(errors: Errors): (items: seq<string>)
    ensures |items| <= |errors|
    ensures forall k :: 0 <= k < |items| ==> items[k] != ""
  {
    if errors == [] then []
    else (if HasMessage(errors[0]) then [MessageOf(errors[0])] else []) + ListItems(errors[1..])
  }

  /** Entry `idx[k]` of `errors` has a truthy message and it is `items[k]`. */
  ghost predicate Picks(errors: Errors, items: seq<string>, idx: seq<nat>) {
    && |idx| == |items|
    && forall k :: 0 <= k < |idx| ==>
         idx[k] < |errors| && HasMessage(errors[idx[k]]) && items[k] == MessageOf(errors[idx[k]])
  }

  /** The picked entries keep their original order. */
  ghost predicate Increasing(idx: seq<nat>) {
    forall k, l :: 0 <= k < l < |idx| ==> idx[k] < idx[l]
  }

  /** No entry with a truthy message is left out. */
  ghost predicate Covers(errors: Errors, idx: seq<nat>) {
    forall i :: 0 <= i < |errors| && HasMessage(errors[i]) ==> i in idx
  }

  /** `idx` picks out the entries of `errors` that `items` shows: in order,
      each with its own message, and no entry with a truthy message left out. */
  ghost predicate Selects(errors: Errors, items: seq<string>, idx: seq<nat>) {
    Picks(errors, items, idx) && Increasing(idx) && Covers(errors, idx)
  }

  /** Every index of `idx` moved one entry to the right. */
  function Shift(idx: seq<nat>): (r: seq<nat>)
    ensures |r| == |idx|
    ensures forall k :: 0 <= k < |idx| ==> r[k] == idx[k] + 1
  {
    seq(|idx|, k requires 0 <= k < |idx| => idx[k] + 1)
  }

  lemma PicksSkip(errors: Errors, items: seq<string>, rest: seq<nat>)
    requires errors != []
    requires Picks(errors[1..], items, rest)
    ensures Picks(errors, items, Shift(rest))
  {
    var idx := Shift(rest);
    forall k | 0 <= k < |idx|
      ensures idx[k] < |errors| && HasMessage(errors[idx[k]]) && items[k] == MessageOf(errors[idx[k]])
    {
      assert errors[idx[k]] == errors[1..][rest[k]];
    }
  }

  lemma IncreasingSkip(rest: seq<nat>)
    requires Increasing(rest)
    ensures Increasing(Shift(rest))
  {
  }

  lemma CoversSkip(errors: Errors, rest: seq<nat>)
    requires errors != [] && !HasMessage(errors[0])
    requires Covers(errors[1..], rest)
    ensures Covers(errors, Shift(rest))
  {
    var idx := Shift(rest);
    forall i | 0 <= i < |errors| && HasMessage(errors[i])
      ensures i in idx
    {
      assert errors[1..][i - 1] == errors[i];
      var k :| 0 <= k < |rest| && rest[k] == i - 1;
      assert idx[k] == i;
    }
  }

  /** A selection of the tail, shifted, selects the same items in the whole
      list when its first entry has no truthy message. */
  lemma SelectsSkip(errors: Errors, items: seq<string>, rest: seq<nat>)
    requires errors != [] && !HasMessage(errors[0])
    requires Selects(errors[1..], items, rest)
    ensures Selects(errors, items, Shift(rest))
  {
    PicksSkip(errors, items, rest);
    IncreasingSkip(rest);
    CoversSkip(errors, rest);
  }

  lemma PicksKeep(errors: Errors, items: seq<string>, rest: seq<nat>)
    requires errors != [] && HasMessage(errors[0])
    requires Picks(errors[1..], items, rest)
    ensures Picks(errors, [MessageOf(errors[0])] + items, [0] + Shift(rest))
  {
    var shifted := Shift(rest);
    var idx := [0] + shifted;
    var all := [MessageOf(errors[0])] + items;
    forall k | 0 <= k < |idx|
      ensures idx[k] < |errors| && HasMessage(errors[idx[k]]) && all[k] == MessageOf(errors[idx[k]])
    {
      if k > 0 {
        assert idx[k] == shifted[k - 1] && all[k] == items[k - 1];
        assert errors[idx[k]] == errors[1..][rest[k - 1]];
      }
    }
  }

  lemma IncreasingKeep(rest: seq<nat>)
    requires Increasing(rest)
    ensures Increasing([0] + Shift(rest))
  {
    var shifted := Shift(rest);
    var idx := [0] + shifted;
    forall k, l | 0 <= k < l < |idx|
      ensures idx[k] < idx[l]
    {
      assert idx[l] == shifted[l - 1];
      if k > 0 {
        assert idx[k] == shifted[k - 1];
      }
    }
  }

  lemma CoversKeep(errors: Errors, rest: seq<nat>)
    requires errors != []
    requires Covers(errors[1..], rest)
    ensures Covers(errors, [0] + Shift(rest))
  {
    var idx := [0] + Shift(rest);
    forall i | 0 <= i < |errors| && HasMessage(errors[i])
      ensures i in idx
    {
      if i == 0 {
        assert idx[0] == 0;
      } else {
        assert errors[1..][i - 1] == errors[i];
        var k :| 0 <= k < |rest| && rest[k] == i - 1;
        assert idx[k + 1] == i;
      }
    }
  }

  /** A selection of the tail, shifted and preceded by index 0, selects the
      first entry's message followed by the tail's items. */
  lemma SelectsKeep(errors: Errors, items: seq<string>, rest: seq<nat>)
    requires errors != [] && HasMessage(errors[0])
    requires Selects(errors[1..], items, rest)
    ensures Selects(errors, [MessageOf(errors[0])] + items, [0] + Shift(rest))
  {
    PicksKeep(errors, items, rest);
    IncreasingKeep(rest);
    CoversKeep(errors, rest);
  }

  /** The list is exactly the truthy messages, in their original order:
      undefined entries and entries without a message are skipped. */
  lemma {:induction false} ListItemsSelects(errors: Errors) returns (idx: seq<nat>)
    ensures Selects(errors, ListItems(errors), idx)
  {
    if errors == [] {
      idx := [];
    } else {
      var rest := ListItemsSelects(errors[1..]);
      if HasMessage(errors[0]) {
        SelectsKeep(errors, ListItems(errors[1..]), rest);
        idx := [0] + Shift(rest);
      } else {
        SelectsSkip(errors, ListItems(errors[1..]), rest);
        idx := Shift(rest);
      }
    }
  }

  /** The list of a concatenation is the concatenation of the lists. */
  lemma {:induction false} ListItemsAppend(a: Errors, b: Errors)
    ensures ListItems(a + b) == ListItems(a) + ListItems(b)
  {
    if a == [] {
      assert a + b == b;
    } else {
      assert (a + b)[1..] == a[1..] + b;
      ListItemsAppend(a[1..], b);
    }
  }

  /** The content `FieldError` computes from `children` and `errors`. */
  function FieldErrorContent(children: Node, errors: Option<Errors>): (c: Content)
    ensures c.ChildContent? <==> Truthy(children)
    ensures c.ChildContent? ==> c.node == children
    ensures c.NoContent? <==> !Truthy(children) && errors.None?
    ensures c.SingleMessage? ==> |errors.value| == 1 && HasMessage(errors.value[0])
    ensures c.SingleMessage? ==> [c.text] == ListItems(errors.value)
    ensures c.MessageList? ==> c.items == ListItems(errors.value)
  {
    if Truthy(children) then ChildContent(children)
    else if errors.None? then NoContent
    else if |errors.value| == 1 && HasMessage(errors.value[0]) then SingleMessage(MessageOf(errors.value[0]))
    else MessageList(ListItems(errors.value))
  }

  /** `!content`: a message string is truthy when non-empty, and the `<ul>`
      is an element, so it is truthy even with no items. */
  predicate ContentTruthy(c: Content) {
    match c
    case ChildContent(n) => Truthy(n)
    case NoContent => false
    case SingleMessage(t) => t != ""
    case MessageList(_) => true
  }

  /** Whether `FieldError` renders its `role="alert"` container. */
  predicate FieldErrorRenders(children: Node, errors: Option<Errors>) {
    ContentTruthy(FieldErrorContent(children, errors))
  }

  /** The alert is rendered exactly when the children are truthy or an
      `errors` list is given, whatever that list holds. */
  lemma FieldErrorRendersIff(children: Node, errors: Option<Errors>)
    ensures FieldErrorRenders(children, errors) <==> Truthy(children) || errors.Some?
  {
  }

  /** Truthy children win over any errors. */
  lemma ChildrenTakePrecedence(children: Node, errors: Option<Errors>)
    requires Truthy(children)
    ensures FieldErrorContent(children, errors) == ChildContent(children)
    ensures FieldErrorRenders(children, errors)
  {
  }

  /** One entry with a truthy message is shown as that bare string. */
  lemma SingleErrorIsBareMessage(children: Node, e: FieldIssue)
    requires !Truthy(children) && e.message.Some? && e.message.value != ""
    ensures FieldErrorContent(children, Some([Some(e)])) == SingleMessage(e.message.value)
  {
  }

  /** An empty list, or one entry with no message, gives an empty `<ul>` that
      is still rendered. */
  lemma EmptyListStillRenders(children: Node, errors: Errors)
    requires !Truthy(children)
    requires errors == [] || (|errors| == 1 && !HasMessage(errors[0]))
    ensures FieldErrorContent(children, Some(errors)) == MessageList([])
    ensures FieldErrorRenders(children, Some(errors))
  {
  }

  /** The texts shown in the alert when no children are given. */
  function ShownMessages(c: Content): seq<string> {
    match c
    case ChildContent(_) => []
    case NoContent => []
    case SingleMessage(t) => [t]
    case MessageList(items) => items
  }

  /** Without children, the alert shows the same texts as the message list
      would: the single-message shortcut changes the markup, not the text. */
  lemma ShownMessagesAreTruthyMessages(children: Node, errors: Errors)
    requires !Truthy(children)
    ensures ShownMessages(FieldErrorContent(children, Some(errors))) == ListItems(errors)
  {
  }

  /** `data-content={!!children}` on `FieldSeparator`. */
  predicate SeparatorDataContent(children: Node) {
    Truthy(children)
  }

  /** The label slot of `FieldSeparator` as written: `children && <span>…</span>`,
      which evaluates to `children` itself when `children` is falsy. */
  function SeparatorSlotAsWritten(children: Node): (slot: Node)
    ensures Truthy(children) ==> slot.Element? && slot.children == [children]
    ensures !Truthy(children) ==> slot == children
  {
    if Truthy(children) then Element("span", [children]) else children
  }

  /** The number 0 as a label: `data-content` is false, yet React renders the
      text "0" in the slot. */
  lemma SeparatorZeroLabelShows()
    ensures !SeparatorDataContent(Num(0))
    ensures Visible(SeparatorSlotAsWritten(Num(0)))
  {
  }

  /** The label slot with the evident intent: the span when `children` is
      truthy, nothing at all otherwise. */
  function SeparatorSlot(children: Node): (slot: Node)
    ensures Truthy(children) ==> slot.Element? && slot.children == [children]
    ensures !Truthy(children) ==> !Visible(slot)
  {
    if Truthy(children) then Element("span", [children]) else Null
  }

  /** With the corrected slot, something is shown in it exactly when
      `data-content` is true, and it only ever differs from the as-written
      slot on the label 0. */
  lemma SeparatorSlotAgreesWithFlag(children: Node)
    ensures Visible(SeparatorSlot(children)) <==> SeparatorDataContent(children)
    ensures (Visible(SeparatorSlot(children)) != Visible(SeparatorSlotAsWritten(children)))
              <==> children == Num(0)
  {
    FalsyButVisible(children);
  }
}

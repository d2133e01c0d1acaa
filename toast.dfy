/**
 * components/Toast/Toast.tsx: `showToast` dispatches a notice, and the
 * `ToastContainer` keeps the queue of displayed toasts, appending each notice
 * under an id made from the clock and removing toasts by id when their
 * four-second timer fires.
 */
module Toast {
  import opened Wrappers
  import Seqs

  datatype ToastType = SuccessToast | ErrorToast | InfoToast

  /** The detail of the `toast` event: a message and its type. */
  datatype Notice = Notice(message: string, kind: ToastType)

  /** A displayed toast. */
  datatype ToastItem = ToastItem(id: string, message: string, kind: ToastType)

  /** How long a toast stays before it asks to be removed, in milliseconds. */
  const AutoCloseMs := 4000

  /** `showToast(message, type = "info")`: the notice dispatched; the type defaults to info. */
  function ShowToast(message: string, kind: Option<ToastType>): (n: Notice)
    ensures n.message == message
    ensures kind.Some? ==> n.kind == kind.value
    ensures kind.None? ==> n.kind == InfoToast
  {
    Notice(message, if kind.Some? then kind.value else InfoToast)
  }

  function BgColor(kind: ToastType): string {
    match kind
    case SuccessToast => "bg-green-500"
    case ErrorToast => "bg-red-500"
    case InfoToast => "bg-blue-500"
  }

  function Icon(kind: ToastType): string {
    match kind
    case SuccessToast => "✓"
    case ErrorToast => "✕"
    case InfoToast => "ℹ"
  }

  /** Every type has a colour and an icon, and different types never share either. */
  lemma StylesDistinguishTypes(k1: ToastType, k2: ToastType)
    ensures BgColor(k1) != "" && Icon(k1) != ""
    ensures BgColor(k1) == BgColor(k2) ==> k1 == k2
    ensures Icon(k1) == Icon(k2) ==> k1 == k2
  {
    if k1 != k2 {
      match k1
      case SuccessToast => assert BgColor(k1)[3] == 'g' && Icon(k1)[0] == '✓';
      case ErrorToast => assert BgColor(k1)[3] == 'r' && Icon(k1)[0] == '✕';
      case InfoToast => assert BgColor(k1)[3] == 'b' && Icon(k1)[0] == 'ℹ';
    }
  }

  /** Every character of `s` is a decimal digit. */
  predicate IsDigits(s: string) {
    forall i | 0 <= i < |s| :: '0' <= s[i] <= '9'
  }

  /** The number a digit string denotes, most significant digit first. */
  function DigitsValue(s: string): nat
    requires IsDigits(s)
  {
    if s == [] then 0 else DigitsValue(s[..|s| - 1]) * 10 + (s[|s| - 1] as int - '0' as int)
  }

  /** `n.toString()`: the decimal digits of `n`, with no leading zero, denoting `n`. */
  function DecimalString(n: nat): (s: string)
    ensures |s| >= 1 && IsDigits(s)
    ensures DigitsValue(s) == n
    ensures s[0] == '0' ==> s == "0"
    decreases n
  {
    var digit := ['0' + (n % 10) as char];
    if n < 10 then digit
    else
      var high := DecimalString(n / 10);
      assert (high + digit)[..|high + digit| - 1] == high;
      high + digit
  }

  /** Different clock readings give different toast ids. */
  lemma DistinctClocksDistinctIds(m: nat, n: nat)
    requires m != n
    ensures DecimalString(m) != DecimalString(n)
  {
  }

  /** `prev.filter((toast) => toast.id !== id)`. */
  function WithoutId(toasts: seq<ToastItem>, id: string): (r: seq<ToastItem>)
    ensures forall i | 0 <= i < |r| :: r[i].id != id && r[i] in toasts
    ensures forall i | 0 <= i < |toasts| && toasts[i].id != id :: toasts[i] in r
  {
    Seqs.Filter((t: ToastItem) => t.id != id, toasts)
  }

  /** Removing an id no toast has changes nothing. */
  lemma WithoutAbsentId(toasts: seq<ToastItem>, id: string)
    requires forall i | 0 <= i < |toasts| :: toasts[i].id != id
    ensures WithoutId(toasts, id) == toasts
  {
    Seqs.FilterKeepsAll((t: ToastItem) => t.id != id, toasts);
  }

  /** Removal acts on each part of the queue separately, so the remaining toasts keep their order. */
  lemma WithoutIdAppend(a: seq<ToastItem>, b: seq<ToastItem>, id: string)
    ensures WithoutId(a + b, id) == WithoutId(a, id) + WithoutId(b, id)
  {
    Seqs.FilterAppend((t: ToastItem) => t.id != id, a, b);
  }

  class ToastContainer {
    var toasts: seq<ToastItem>

    constructor ()
      ensures toasts == []
    {
      toasts := [];
    }

    /** `handleToast`: appends the notice under the id `Date.now().toString()`, `now` being the clock in milliseconds. */
    method HandleToast(notice: Notice, now: nat)
      modifies this
      ensures toasts == old(toasts) + [ToastItem(DecimalString(now), notice.message, notice.kind)]
    {
      toasts := toasts + [ToastItem(DecimalString(now), notice.message, notice.kind)];
    }

    /** `removeToast(id)`: drops every toast with that id. */
    method RemoveToast(id: string)
      modifies this
      ensures toasts == WithoutId(old(toasts), id)
    {
      toasts := WithoutId(toasts, id);
    }

    /** The auto-close timer of the toast at `index` fires: that toast's id is removed. */
    method AutoClose(index: nat)
      requires index < |toasts|
      modifies this
      ensures toasts == WithoutId(old(toasts), old(toasts)[index].id)
      ensures old(toasts)[index] !in toasts
    {
      RemoveToast(toasts[index].id);
    }
  }

  /**
   * A toast shown at a time no queued toast's id names is the one removed when
   * its own timer fires: the queue returns to what it was.
   */
  lemma CloseUndoesShow(toasts: seq<ToastItem>, notice: Notice, now: nat)
    requires forall i | 0 <= i < |toasts| :: toasts[i].id != DecimalString(now)
    ensures WithoutId(toasts + [ToastItem(DecimalString(now), notice.message, notice.kind)], DecimalString(now)) == toasts
  {
    var id := DecimalString(now);
    var added := [ToastItem(id, notice.message, notice.kind)];
    WithoutIdAppend(toasts, added, id);
    WithoutAbsentId(toasts, id);
    assert WithoutId(added, id) == [];
  }

  /**
   * Two notices shown in the same millisecond get the same id, so the first
   * one's timer removes both.
   */
  lemma SameMillisecondToastsCloseTogether(n1: Notice, n2: Notice, now: nat)
    ensures WithoutId([ToastItem(DecimalString(now), n1.message, n1.kind), ToastItem(DecimalString(now), n2.message, n2.kind)],
                      DecimalString(now)) == []
  {
    var id := DecimalString(now);
    var t1 := ToastItem(id, n1.message, n1.kind);
    var t2 := ToastItem(id, n2.message, n2.kind);
    WithoutIdAppend([t1], [t2], id);
    assert [t1] + [t2] == [t1, t2];
  }
}

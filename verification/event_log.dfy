/** The ring of recent event-log entries (src/cgateWebBridge.js, lines 399-432). */
module EventLogs {
  import opened Options

  const MIN_ENTRIES: nat := 10

  function CapacityFor(setting: int): (n: nat)
    ensures n >= MIN_ENTRIES && n >= setting
  {
    if setting > MIN_ENTRIES then setting else MIN_ENTRIES
  }

  lemma CapacityIs(setting: int)
    ensures CapacityFor(setting) == if setting < 10 then 10 else setting
  {
  }

  /** The last n of a history, or all of it. */
  function LastOf<T>(history: seq<T>, n: nat): (r: seq<T>)
    ensures |r| == (if |history| < n then |history| else n) && r == history[|history| - |r|..]
  {
    if |history| <= n then history else history[|history| - n..]
  }

  lemma Wraps(a: nat, n: nat)
    requires 0 < n && a < 2 * n
    ensures a % n == if a < n then a else a - n
  {
    if a >= n {
      assert a == n * 1 + (a - n);
    }
  }

  /** The slot of the i-th oldest entry. */
  function Slot(head: nat, i: nat, size: nat): (k: nat)
    requires head < size && i <= size
    ensures k < size && k == if head + i < size then head + i else head + i - size
  {
    Wraps(head + i, size);
    (head + i) % size
  }

  class EventLog<T(==)> {
    const size: nat
    const buffer: array<Option<T>>
    var head: nat
    var count: nat

    /** Everything ever recorded. */
    ghost var history: seq<T>

    ghost predicate Valid()
      reads this, buffer
    {
      && size >= MIN_ENTRIES && buffer.Length == size && head < size
      && count == (if |history| < size then |history| else size)
      && (count < size ==> head == 0)
      && forall i :: 0 <= i < count ==> buffer[Slot(head, i, size)] == Some(history[|history| - count + i])
    }

    constructor (setting: int)
      ensures Valid() && fresh(buffer) && history == [] && size == CapacityFor(setting)
    {
      var n := CapacityFor(setting);
      size := n;
      buffer := new Option<T>[n](_ => None);
      head, count, history := 0, 0, [];
    }

    method OnEventLog(entry: T)
      requires Valid()
      modifies this, buffer
      ensures Valid() && history == old(history) + [entry]
    {
      if count < size {
        buffer[Slot(head, count, size)] := Some(entry);
        count := count + 1;
      } else {
        ghost var head0 := head;
        buffer[head] := Some(entry);
        head := Slot(head, 1, size);
        assert forall i :: 0 <= i < size - 1 ==> Slot(head, i, size) == Slot(head0, i + 1, size) != head0;
        assert Slot(head, size - 1, size) == head0;
      }
      history := history + [entry];
    }

    /** The newest entries, oldest first: exactly the last `size` of everything recorded. */
    method GetRecent() returns (recent: seq<T>)
      requires Valid()
      ensures recent == LastOf(history, size)
    {
      recent := [];
      for i := 0 to count
        invariant recent == LastOf(history, size)[..i]
      {
        recent := recent + [buffer[Slot(head, i, size)].value];
      }
    }
  }
}

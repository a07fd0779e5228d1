/**
 * The two variadic helpers of tmp.h, which write one value per argument into
 * consecutive slots of a caller-owned buffer, one recursion level per
 * argument. The C++ templates exist only for one or more arguments, hence
 * `|args| >= 1`.
 */
module Fill {

  /** `fill<T...>()(ptr, args...)`: slot `ptr + k` receives `args[k]`; nothing else changes. */
  method Fill<T>(buf: array<T>, ptr: nat, args: seq<T>)
    requires 1 <= |args| && ptr + |args| <= buf.Length
    modifies buf
    ensures forall k :: 0 <= k < |args| ==> buf[ptr + k] == args[k]
    ensures forall j :: 0 <= j < buf.Length && !(ptr <= j < ptr + |args|) ==> buf[j] == old(buf[j])
    decreases |args|
  {
    buf[ptr] := args[0];
    if |args| > 1 {
      Fill(buf, ptr + 1, args[1..]);
    }
  }

  /**
   * `fill_with_return<R, T...>()(func, ptr, args...)`: slot `ptr + k` receives
   * `func(args[k])`, in argument order; nothing outside those slots changes.
   */
  method FillWithReturn<A, R>(func: A -> R, buf: array<R>, ptr: nat, args: seq<A>)
    requires 1 <= |args| && ptr + |args| <= buf.Length
    modifies buf
    ensures forall k :: 0 <= k < |args| ==> buf[ptr + k] == func(args[k])
    ensures forall j :: 0 <= j < buf.Length && !(ptr <= j < ptr + |args|) ==> buf[j] == old(buf[j])
    decreases |args|
  {
    buf[ptr] := func(args[0]);
    if |args| > 1 {
      FillWithReturn(func, buf, ptr + 1, args[1..]);
    }
  }
}

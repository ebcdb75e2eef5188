/** Shared vocabulary of the acquisition pipeline: bytes, optional values,
    the Python exceptions the scripts raise or catch, Python slicing, and
    the order-preserving row filter that pandas boolean indexing performs. */
module Common {

  type byte = x: int | 0 <= x < 256

  datatype Option<T> = None | Some(value: T)

  /** The Python exceptions that the modelled code raises or catches. */
  datatype PyError =
    | SerialException      // pyserial could not open the port
    | AssertionError       // the welcome message did not match
    | ProcessUnavailable   // psutil.NoSuchProcess or psutil.AccessDenied
    | PlotTypeError        // pandas: no numeric data to plot, on an empty series

  /** A call that either returns a value or raises a Python exception. */
  datatype Result<T> = Ok(value: T) | Raised(error: PyError)

  function Min(a: int, b: int): int { if a <= b then a else b }

  /** Python's `s[lo:hi]` for non-negative bounds: both bounds are clamped
      to the length, and the slice is empty when `lo >= hi`. */
  function Slice<T>(s: seq<T>, lo: nat, hi: nat): (r: seq<T>)
    ensures |r| == (if hi <= lo || |s| <= lo then 0 else Min(hi, |s|) - lo)
    ensures forall k :: 0 <= k < |r| ==> r[k] == s[lo + k]
  {
    if hi <= lo || |s| <= lo then [] else s[lo..Min(hi, |s|)]
  }

  /** What a pyserial `read(n)` hands back when the device sent `sent`:
      at most `n` bytes, fewer when the timeout ends the read early. */
  function Take<T>(sent: seq<T>, n: nat): (r: seq<T>)
    ensures |r| == Min(n, |sent|)
    ensures r <= sent
  {
    Slice(sent, 0, n)
  }

  /** The elements of `s` that satisfy `keep`, in their original order. */
  function Filter<T>(s: seq<T>, keep: T -> bool): seq<T>
  {
    if s == [] then []
    else (if keep(s[0]) then [s[0]] else []) + Filter(s[1..], keep)
  }

  lemma {:induction false} FilterMembership<T>(s: seq<T>, keep: T -> bool, x: T)
    ensures x in Filter(s, keep) <==> x in s && keep(x)
  {
    if s != [] {
      FilterMembership(s[1..], keep, x);
      assert x in s <==> x == s[0] || x in s[1..];
    }
  }

  lemma {:induction false} FilterAppend<T>(a: seq<T>, b: seq<T>, keep: T -> bool)
    ensures Filter(a + b, keep) == Filter(a, keep) + Filter(b, keep)
  {
    if a == [] {
      assert a + b == b;
    } else {
      var ab := a + b;
      assert ab[0] == a[0];
      assert ab[1..] == a[1..] + b;
      FilterAppend(a[1..], b, keep);
      var head := if keep(a[0]) then [a[0]] else [];
      assert Filter(ab, keep) == head + (Filter(a[1..], keep) + Filter(b, keep));
      assert Filter(a, keep) == head + Filter(a[1..], keep);
    }
  }

  lemma {:induction false} FilterKeepsAll<T>(s: seq<T>, keep: T -> bool)
    requires forall k :: 0 <= k < |s| ==> keep(s[k])
    ensures Filter(s, keep) == s
  {
    if s != [] {
      FilterKeepsAll(s[1..], keep);
      assert [s[0]] + s[1..] == s;
    }
  }

  lemma {:induction false} FilterLength<T>(s: seq<T>, keep: T -> bool)
    ensures |Filter(s, keep)| <= |s|
    ensures |Filter(s, keep)| == |s| <==> forall k :: 0 <= k < |s| ==> keep(s[k])
  {
    if s != [] {
      FilterLength(s[1..], keep);
      if forall k :: 0 <= k < |s[1..]| ==> keep(s[1..][k]) {
        assert keep(s[0]) ==> forall k :: 0 <= k < |s| ==> keep(s[k]) by {
          forall k | 0 < k < |s| ensures keep(s[k]) { assert s[k] == s[1..][k - 1]; }
        }
      } else {
        var j :| 0 <= j < |s[1..]| && !keep(s[1..][j]);
        assert !keep(s[j + 1]);
      }
    }
  }
}

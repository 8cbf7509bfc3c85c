/** What the C library does with memory. */
module Memory {

  /** realloc: a longer array with the same elements in front. */
  method Realloc<T>(a: array<T>, capacity: nat, zero: T) returns (grown: array<T>)
    requires capacity >= a.Length
    ensures fresh(grown) && grown.Length == capacity && grown[..a.Length] == a[..]
  {
    grown := new T[capacity](_ => zero);
    for i := 0 to a.Length
      invariant grown[..i] == a[..i]
    {
      grown[i] := a[i];
    }
  }
}

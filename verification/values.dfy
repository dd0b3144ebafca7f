/**
 * Values shared by every screen of the point-of-sale component: optional
 * values, numeric form fields (JavaScript truthiness of their text), and the
 * whitespace trimming the forms apply before checking a name.
 */
module Values {

  datatype Option<T> = None | Some(value: T)

  /**
   * A numeric text input after parsing. `Blank` is the empty string, which
   * JavaScript treats as false; `Entered` is any non-empty text, which is
   * true even when it reads "0", carried as the number it parses to.
   */
  datatype Entry = Blank | Entered(value: real)

  /** `parseFloat(x || 0)`: a blank field counts as zero. */
  function OrZero(e: Entry): real
  {
    match e
    case Blank => 0.0
    case Entered(v) => v
  }

  /** The characters `String.prototype.trim` removes that this model knows. */
  predicate IsSpace(c: char)
  {
    c == ' ' || c == '\t' || c == '\n' || c == '\r' ||
    c == '\U{000B}' || c == '\U{000C}' || c == '\U{00A0}' || c == '\U{FEFF}'
  }

  /** Drops leading white space: the result is a suffix of `s` that starts with a non-space. */
  function TrimStart(s: string): (r: string)
    ensures |r| <= |s| && r == s[|s| - |r|..]
    ensures forall i :: 0 <= i < |s| - |r| ==> IsSpace(s[i])
    ensures r == [] || !IsSpace(r[0])
  {
    if |s| > 0 && IsSpace(s[0]) then TrimStart(s[1..]) else s
  }

  /** Drops trailing white space: the result is a prefix of `s` that ends with a non-space. */
  function TrimEnd(s: string): (r: string)
    ensures |r| <= |s| && r == s[..|r|]
    ensures forall i :: |r| <= i < |s| ==> IsSpace(s[i])
    ensures r == [] || !IsSpace(r[|r| - 1])
  {
    if |s| > 0 && IsSpace(s[|s| - 1]) then TrimEnd(s[..|s| - 1]) else s
  }

  /** `s.trim()` */
  function Trim(s: string): string
  {
    TrimEnd(TrimStart(s))
  }

  /** `!s.trim()`: a name is rejected exactly when it is made of white space only. */
  lemma TrimEmptyIffBlank(s: string)
    ensures Trim(s) == [] <==> forall i :: 0 <= i < |s| ==> IsSpace(s[i])
  {
    var t := TrimStart(s);
    if Trim(s) == [] {
      assert |s| - |t| == |s|;
    } else {
      var c := Trim(s)[0];
      assert c == t[0];
      assert s[|s| - |t|] == t[0];
      assert !IsSpace(s[|s| - |t|]);
    }
  }

  /** Trimming removes nothing from a name that has no white space at either end. */
  lemma TrimKeepsInner(s: string)
    requires s != [] && !IsSpace(s[0]) && !IsSpace(s[|s| - 1])
    ensures Trim(s) == s
  {
  }
}

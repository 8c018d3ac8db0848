/** The string operations the controller applies to request fields:
    `trim()`, `toLowerCase()` and JavaScript truthiness. */
module Text {
  import opened Common

  /** The white-space characters `String.prototype.trim` strips, restricted to
      the ASCII ones plus no-break space and the byte-order mark. */
  predicate IsSpace(c: char)
  {
    c == ' ' || c == '\t' || c == '\n' || c == '\r' || c == '\U{0B}' || c == '\U{0C}'
    || c == '\U{A0}' || c == '\U{FEFF}'
  }

  /** A string with nothing but white space in it (the empty string included). */
  predicate IsBlank(s: string)
  {
    forall i :: 0 <= i < |s| ==> IsSpace(s[i])
  }

  /** Drops the leading white space: the result is a suffix of `s` that does
      not start with white space, and all that was dropped is white space. */
  function TrimStart(s: string): (r: string)
    ensures |r| <= |s| && r == s[|s| - |r|..]
    ensures r == [] || !IsSpace(r[0])
    ensures forall i :: 0 <= i < |s| - |r| ==> IsSpace(s[i])
  {
    if |s| > 0 && IsSpace(s[0]) then TrimStart(s[1..]) else s
  }

  /** Drops the trailing white space: the result is a prefix of `s` that does
      not end with white space, and all that was dropped is white space. */
  function TrimEnd(s: string): (r: string)
    ensures |r| <= |s| && r == s[..|r|]
    ensures r == [] || !IsSpace(r[|r| - 1])
    ensures forall i :: |r| <= i < |s| ==> IsSpace(s[i])
    ensures s != [] && !IsSpace(s[0]) ==> r != []
  {
    if |s| > 0 && IsSpace(s[|s| - 1]) then TrimEnd(s[..|s| - 1]) else s
  }

  /** `s.trim()`: the stretch of `s` left once the white space on both
      sides is dropped. It is empty exactly when `s` is blank; otherwise it
      starts and ends with a character that is not white space. */
  function Trim(s: string): (r: string)
    ensures |r| <= |s|
    ensures r == [] <==> IsBlank(s)
    ensures r != [] ==> !IsSpace(r[0]) && !IsSpace(r[|r| - 1])
    ensures exists a :: StretchAt(s, r, a)
  {
    var t := TrimStart(s);
    var u := TrimEnd(t);
    StretchOfTrimmedEnds(s, t, u);
    if u == [] then
      assert t == [];
      u
    else
      assert u[0] == t[0];
      assert !IsBlank(s) by {
        assert s[|s| - |t|] == t[0];
      }
      u
  }

  /** Dropping white space from the front of `s` (giving `t`) and then from
      the back of `t` (giving `u`) leaves a stretch of `s` with only white
      space around it. */
  lemma StretchOfTrimmedEnds(s: string, t: string, u: string)
    requires |t| <= |s| && t == s[|s| - |t|..]
    requires forall i :: 0 <= i < |s| - |t| ==> IsSpace(s[i])
    requires |u| <= |t| && u == t[..|u|]
    requires forall i :: |u| <= i < |t| ==> IsSpace(t[i])
    ensures StretchAt(s, u, |s| - |t|)
  {
    var a := |s| - |t|;
    assert u == s[a..a + |u|];
    forall i | a + |u| <= i < |s| ensures IsSpace(s[i]) {
      assert s[i] == t[i - a];
    }
  }

  /** `r` is the stretch of `s` starting at `a`, and everything of `s`
      before and after it is white space. */
  predicate StretchAt(s: string, r: string, a: nat)
  {
    && a + |r| <= |s|
    && r == s[a..a + |r|]
    && (forall i :: 0 <= i < a ==> IsSpace(s[i]))
    && (forall i :: a + |r| <= i < |s| ==> IsSpace(s[i]))
  }

  /** `String.prototype.toLowerCase`, for the ASCII letters. */
  function ToLowerChar(c: char): char
  {
    if 'A' <= c <= 'Z' then (c as int + ('a' as int - 'A' as int)) as char else c
  }

  predicate IsLower(s: string)
  {
    forall i :: 0 <= i < |s| ==> !('A' <= s[i] <= 'Z')
  }

  /** `s.toLowerCase()`: no upper-case letter survives, lengths agree,
      and a string already in lower case is returned as it is. */
  function ToLower(s: string): (r: string)
    ensures |r| == |s| && IsLower(r)
    ensures IsLower(s) ==> r == s
  {
    seq(|s|, i requires 0 <= i < |s| => ToLowerChar(s[i]))
  }

  /** JavaScript truthiness of an optional string field: present and not "". */
  predicate Truthy(field: Option<string>)
  {
    field.Some? && field.value != ""
  }

  /** `[…].some((field) => field?.trim() === "")`: some field is PRESENT and
      blank, which is what trimming to the empty string means (`Trim`'s
      contract; `SomePresentBlankIsTrimTest` restates it for the fields). An
      absent field never counts as blank. */
  function SomePresentBlank(fields: seq<Option<string>>): (r: bool)
    ensures r <==> exists i :: 0 <= i < |fields| && fields[i].Some? && IsBlank(fields[i].value)
  {
    if fields == [] then false
    else if fields[0].Some? && IsBlank(fields[0].value) then true
    else
      var rest := SomePresentBlank(fields[1..]);
      assert rest ==> exists i :: 0 <= i < |fields| && fields[i].Some? && IsBlank(fields[i].value) by {
        if rest {
          var j :| 0 <= j < |fields[1..]| && fields[1..][j].Some? && IsBlank(fields[1..][j].value);
          assert fields[j + 1] == fields[1..][j];
        }
      }
      assert (exists i :: 0 <= i < |fields| && fields[i].Some? && IsBlank(fields[i].value)) ==> rest by {
        if exists i :: 0 <= i < |fields| && fields[i].Some? && IsBlank(fields[i].value) {
          var i :| 0 <= i < |fields| && fields[i].Some? && IsBlank(fields[i].value);
          assert i != 0;
          assert fields[1..][i - 1] == fields[i];
        }
      }
      rest
  }

  /** The blank-field test is the `.some(field => field?.trim() === "")`
      callback applied to every field. */
  lemma SomePresentBlankIsTrimTest(fields: seq<Option<string>>)
    ensures SomePresentBlank(fields) <==> exists i :: 0 <= i < |fields| && fields[i].Some? && Trim(fields[i].value) == ""
  {
    if SomePresentBlank(fields) {
      var i :| 0 <= i < |fields| && fields[i].Some? && IsBlank(fields[i].value);
      assert Trim(fields[i].value) == "";
    }
  }
}

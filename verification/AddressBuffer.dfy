/** The two `char[INET6_ADDRSTRLEN]` buffers of a private record. */
module AddressBuffer {
  import opened Basics

  const INET6_ADDRSTRLEN: nat := 46

  /** The C string at the start of these bytes. */
  function CString(bytes: seq<char>): (s: string)
    ensures |s| <= |bytes| && s == bytes[..|s|]
    ensures '\0' !in s && (|s| < |bytes| ==> bytes[|s|] == '\0')
  {
    if bytes == [] || bytes[0] == '\0' then "" else [bytes[0]] + CString(bytes[1..])
  }

  /** The text ends at the first terminator, wherever that is. */
  lemma {:induction false} CStringIs(bytes: seq<char>, s: string)
    requires '\0' !in s && |s| < |bytes| && bytes[..|s|] == s && bytes[|s|] == '\0'
    ensures CString(bytes) == s
    decreases |s|
  {
    if s != "" {
      assert bytes[0] == s[0] && s[0] in s;
      assert bytes[1..][..|s| - 1] == s[1..];
      CStringIs(bytes[1..], s[1..]);
    }
  }

  class Buffer {
    const bytes: array<char>

    /** Always terminated: the last byte is never written. */
    ghost predicate Valid()
      reads this, bytes
    {
      bytes.Length == INET6_ADDRSTRLEN && bytes[INET6_ADDRSTRLEN - 1] == '\0'
    }

    ghost function Text(): (s: string)
      requires Valid()
      reads this, bytes
      ensures |s| < INET6_ADDRSTRLEN
    {
      CString(bytes[..])
    }

    /** `calloc` */
    constructor ()
      ensures Valid() && Text() == "" && fresh(bytes)
    {
      bytes := new char[INET6_ADDRSTRLEN](_ => '\0');
    }

    /**
     `strncpy(buffer, src, INET6_ADDRSTRLEN - 1)`: the text is exactly the source, cut to what fits,
     with nothing left of what was there before.
     */
    method Copy(src: string)
      requires Valid() && '\0' !in src
      modifies bytes
      ensures Valid() && Text() == Trunc(src, INET6_ADDRSTRLEN - 1)
      ensures forall i :: |Text()| <= i < INET6_ADDRSTRLEN ==> bytes[i] == '\0'
    {
      var n := INET6_ADDRSTRLEN - 1;
      var i := 0;
      while i < n && i < |src|
        invariant 0 <= i <= n && i <= |src|
        invariant bytes[..i] == src[..i] && bytes[n] == '\0'
      {
        bytes[i] := src[i];
        i := i + 1;
      }
      ghost var text := Trunc(src, n);
      assert i == |text| && bytes[..i] == text;
      while i < n
        invariant |text| <= i <= n
        invariant bytes[..|text|] == text && bytes[n] == '\0'
        invariant forall j :: |text| <= j < i ==> bytes[j] == '\0'
      {
        bytes[i] := '\0';
        i := i + 1;
      }
      CStringIs(bytes[..], text);
    }

    /** `memset(buffer, 0, INET6_ADDRSTRLEN)` */
    method Clear()
      requires Valid()
      modifies bytes
      ensures Valid() && Text() == ""
    {
      var i := 0;
      while i < bytes.Length
        invariant 0 <= i <= bytes.Length
        invariant forall j :: 0 <= j < i ==> bytes[j] == '\0'
      {
        bytes[i] := '\0';
        i := i + 1;
      }
    }

    /** `STRING_EMPTY(buffer)` looks at the first byte only. */
    method IsEmpty() returns (empty: bool)
      requires Valid()
      ensures empty <==> Text() == ""
    {
      empty := bytes[0] == '\0';
    }
  }
}

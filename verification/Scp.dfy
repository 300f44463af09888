/** The buffers shared with the system-control processor, whose bus logic swizzles byte addresses
    (src/driver/platform/a64/scp.h). */
module ScpBuffers {

  /** Size of the character array of a shared buffer. */
  const CAPACITY: nat := 1020

  /** The byte index with its last two bits flipped. */
  function SwizzledIndex(i: nat): nat { i + 3 - 2 * (i % 4) }

  /** The swizzle undoes itself and stays within its aligned group of four. */
  lemma SwizzleIsInvolution(i: nat)
    ensures SwizzledIndex(SwizzledIndex(i)) == i
    ensures SwizzledIndex(i) / 4 == i / 4
  {
    var q, r := i / 4, i % 4;
    assert i == 4 * q + r && SwizzledIndex(i) == 4 * q + (3 - r);
  }

  lemma SwizzledIndexInRange(i: nat, size: nat)
    requires i < size && size % 4 == 0
    ensures SwizzledIndex(i) < size
  {
    SwizzleIsInvolution(i);
  }

  /** The characters as the other side of the bus sees them. */
  function View(chars: string): (v: string)
    requires |chars| % 4 == 0
    ensures |v| == |chars|
  {
    seq(|chars|, i requires 0 <= i < |chars| => ViewAt(chars, i))
  }

  function ViewAt(chars: string, i: nat): char
    requires i < |chars| && |chars| % 4 == 0
  {
    SwizzledIndexInRange(i, |chars|);
    chars[SwizzledIndex(i)]
  }

  /** Looking from both sides shows the original. */
  lemma ViewIsInvolution(chars: string)
    requires |chars| % 4 == 0
    ensures View(View(chars)) == chars
  {
    forall i | 0 <= i < |chars| ensures View(View(chars))[i] == chars[i] {
      SwizzleIsInvolution(i);
      SwizzledIndexInRange(i, |chars|);
    }
  }

  /** The buffer after a text was stored for the other side. */
  function Stored(chars: string, s: string): (r: string)
    requires |chars| % 4 == 0 && |s| <= |chars|
    ensures |r| == |chars|
  {
    View(s + View(chars)[|s|..])
  }

  /** What was stored is what the other side sees. */
  lemma StoredIsSeen(chars: string, s: string)
    requires |chars| % 4 == 0 && |s| <= |chars|
    ensures View(Stored(chars, s))[..|s|] == s
    ensures View(Stored(chars, s))[|s|..] == View(chars)[|s|..]
  {
    ViewIsInvolution(s + View(chars)[|s|..]);
  }

  /** A buffer that shows a text, followed by what was there before, has the text stored. */
  lemma StoredIsUnique(before: string, s: string, after: string)
    requires |before| % 4 == 0 && |after| == |before| && |s| <= |before|
    requires forall j :: 0 <= j < |after| ==> View(after)[j] == if j < |s| then s[j] else View(before)[j]
    ensures after == Stored(before, s)
  {
    assert View(after) == s + View(before)[|s|..];
    ViewIsInvolution(after);
  }

  /** A swizzled write is seen at the plain index. */
  lemma WriteIsSeen(chars: string, i: nat, c: char)
    requires i < |chars| && |chars| % 4 == 0
    ensures SwizzledIndex(i) < |chars|
    ensures View(chars[SwizzledIndex(i) := c]) == View(chars)[i := c]
  {
    SwizzledIndexInRange(i, |chars|);
    var after := chars[SwizzledIndex(i) := c];
    forall j | 0 <= j < |chars| ensures View(after)[j] == View(chars)[i := c][j] {
      SwizzleIsInvolution(i);
      SwizzleIsInvolution(j);
      SwizzledIndexInRange(j, |chars|);
    }
  }

  class SharedBuffer {
    var count: nat
    const chars: array<char>

    ghost predicate Valid()
    {
      chars.Length == CAPACITY
    }

    constructor ()
      ensures Valid() && fresh(chars) && count == 0
    {
      count := 0;
      chars := new char[CAPACITY](_ => '\0');
    }

    /** Copy a text into the buffer, swizzled. */
    method Put(str: array<char>, len: nat)
      requires Valid() && len <= CAPACITY && len <= str.Length && str != chars
      modifies this, chars
      ensures chars[..] == Stored(old(chars[..]), str[..len]) && count == len
    {
      hide View, SwizzledIndex, Stored;
      ghost var before := chars[..];
      for i := 0 to len
        invariant str[..] == old(str[..])
        invariant forall j :: 0 <= j < CAPACITY ==> View(chars[..])[j] == if j < i then str[j] else View(before)[j]
      {
        ghost var was := chars[..];
        WriteIsSeen(was, i, str[i]);
        chars[SwizzledIndex(i)] := str[i];
        assert chars[..] == was[SwizzledIndex(i) := str[i]];
      }
      StoredIsUnique(before, str[..len], chars[..]);
      count := len % 1024;
    }

    /** Copy the first `len` characters out of the buffer, swizzled. */
    method Get(dst: array<char>, len: nat)
      requires Valid() && len <= CAPACITY && len <= dst.Length && dst != chars
      modifies dst
      ensures dst[..] == View(chars[..])[..len] + old(dst[len..])
    {
      ghost var seen := View(chars[..]);
      for i := 0 to len
        invariant chars[..] == old(chars[..])
        invariant forall j :: 0 <= j < dst.Length ==> dst[j] == if j < i then seen[j] else old(dst[j])
      {
        SwizzledIndexInRange(i, CAPACITY);
        dst[i] := chars[SwizzledIndex(i)];
      }
    }
  }

  /** Retrieving undoes submitting: a text put into a buffer by one side is what the other side
      gets out of it. */
  lemma RetrieveUndoesSubmit(chars: string, s: string, dst: string)
    requires |chars| == CAPACITY && |s| <= CAPACITY && |s| <= |dst|
    ensures View(Stored(chars, s))[..|s|] + dst[|s|..] == s + dst[|s|..]
  {
    StoredIsSeen(chars, s);
  }

  // ---- where the bytes are ----

  /** In words of four bytes: the byte at offset `r` of word `q` comes from offset `3 - r`. */
  lemma ViewReversesWords(chars: string, q: nat, r: nat)
    requires |chars| % 4 == 0 && 4 * q + 3 < |chars| && r < 4
    ensures View(chars)[4 * q + r] == chars[4 * q + 3 - r]
  {
    assert (4 * q + r) % 4 == r;
  }

  /** A submitted text lies byte-reversed in its aligned words, the last of which it may fill only in
      part; what it leaves of that word, and all further words, are as before. */
  lemma SubmittedWordsAreReversed(chars: string, s: string, q: nat, r: nat)
    requires |chars| % 4 == 0 && |s| <= |chars| && 4 * q + 3 < |chars| && r < 4
    ensures Stored(chars, s)[4 * q + 3 - r] == if 4 * q + r < |s| then s[4 * q + r] else chars[4 * q + 3 - r]
  {
    ViewReversesWords(s + View(chars)[|s|..], q, 3 - r);
    ViewReversesWords(chars, q, r);
  }

  /** The processor's program, submitted by the driver: "abcd" is stored as "dcba". */
  lemma FourBytesAreReversed(chars: string, s: string)
    requires |chars| == CAPACITY && |s| == 4
    ensures Stored(chars, s) == [s[3], s[2], s[1], s[0]] + chars[4..]
  {
    var stored := Stored(chars, s);
    forall i | 0 <= i < CAPACITY
      ensures stored[i] == if i < 4 then s[3 - i] else chars[i]
    {
      var q, r := i / 4, 3 - i % 4;
      assert i == 4 * q + 3 - r;
      SubmittedWordsAreReversed(chars, s, q, r);
    }
  }

  /** A retrieved text is what lies byte-reversed in the aligned words. */
  lemma RetrievedWordsAreReversed(chars: string, len: nat, dst: string, q: nat, r: nat)
    requires |chars| == CAPACITY && len <= CAPACITY && len <= |dst| && r < 4 && 4 * q + r < len
    ensures (View(chars)[..len] + dst[len..])[4 * q + r] == chars[4 * q + 3 - r]
  {
    ViewReversesWords(chars, q, r);
  }
}

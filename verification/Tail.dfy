/** `pkg/tracing/tail.go`: the last bytes written, kept in a ring. */
module Tail {
  import opened Bytes

  const TAIL_BYTES := 8192
  const UTF_MAX := 4
  const NEWLINE: Byte := 10

  /** The last n elements, or all of them. */
  function Last<T>(s: seq<T>, n: nat): seq<T> {
    if |s| <= n then s else s[|s| - n..]
  }

  /** What is in a ring, oldest first. */
  function Unrolled(ring: seq<Byte>, next: nat, wrapped: bool): seq<Byte>
    requires next <= |ring|
  {
    if wrapped then ring[next..] + ring[..next] else ring[..next]
  }

  function Copied(ring: seq<Byte>, at: nat, chunk: seq<Byte>): seq<Byte>
    requires at + |chunk| <= |ring|
  {
    ring[..at] + chunk + ring[at + |chunk|..]
  }

  lemma LastOfLast<T>(s: seq<T>, more: seq<T>, n: nat)
    ensures Last(Last(s, n) + more, n) == Last(s + more, n)
  {
  }

  /** Whether the ring holds the last of what was written. */
  ghost predicate Keeps(ring: seq<Byte>, next: nat, wrapped: bool, written: seq<Byte>) {
    && next < |ring| && (wrapped <==> |written| >= |ring|)
    && Unrolled(ring, next, wrapped) == Last(written, |ring|)
  }

  /** Unrolled from behind the chunk, a ring reads on from where it did and ends with the chunk. */
  lemma CopyUnrolls(ring: seq<Byte>, next: nat, chunk: seq<Byte>)
    requires next + |chunk| <= |ring|
    ensures var after, end := Copied(ring, next, chunk), next + |chunk|;
            && |after| == |ring| && after[..end] == ring[..next] + chunk
            && after[end..] + after[..end] == (ring[next..] + ring[..next] + chunk)[|chunk|..]
  {
    var after, end := Copied(ring, next, chunk), next + |chunk|;
    var unrolled := ring[next..] + ring[..next] + chunk;
    assert after[..end] == ring[..next] + chunk && after[end..] == ring[end..];
    assert ring[next..][|chunk|..] == ring[end..];
    assert unrolled == ring[next..] + (ring[..next] + chunk);
    assert unrolled[|chunk|..] == ring[end..] + (ring[..next] + chunk);
  }

  /** Copying in a chunk that ends at or before the end of the ring. */
  lemma CopyKeeps(ring: seq<Byte>, next: nat, wrapped: bool, written: seq<Byte>, chunk: seq<Byte>)
    requires Keeps(ring, next, wrapped, written) && next + |chunk| <= |ring|
    ensures var full := next + |chunk| == |ring|;
            Keeps(Copied(ring, next, chunk), if full then 0 else next + |chunk|, wrapped || full, written + chunk)
  {
    var after, end := Copied(ring, next, chunk), next + |chunk|;
    CopyUnrolls(ring, next, chunk);
    if wrapped {
      LastOfLast(written, chunk, |ring|);
    }
    if end == |ring| {
      assert after[0..] + after[..0] == after[end..] + after[..end];
    }
  }

  predicate IsRuneStart(b: Byte) { b < 128 || b >= 192 }

  /** A byte goes on with a character exactly if its first bits are 1 and 0. */
  lemma RuneStartsByBits(b: Byte)
    ensures IsRuneStart(b) <==> b as int / 64 != 2
  {
  }

  /** Drops the rest of a character cut in two. */
  method StartOnCharacter(s: seq<Byte>) returns (rest: seq<Byte>)
    ensures rest == Trimmed(s) && IsCut(rest, s)
  {
    TrimmedIsCut(s, 0);
    for i := 0 to |s|
      invariant i <= UTF_MAX && i <= |s| && Trimmed(s) == (if i < UTF_MAX then TrimmedFrom(s, i) else s)
    {
      if i >= UTF_MAX {
        return s;
      }
      if IsRuneStart(s[i]) {
        return s[i..];
      }
    }
    return s;
  }

  function TrimmedFrom(s: seq<Byte>, i: nat): seq<Byte>
    requires i <= |s|
    decreases |s| - i
  {
    if i == |s| || i >= UTF_MAX then s else if IsRuneStart(s[i]) then s[i..] else TrimmedFrom(s, i + 1)
  }

  function Trimmed(s: seq<Byte>): seq<Byte> { TrimmedFrom(s, 0) }

  /** A text without its first bytes: at most three of them, and only if they go on with a character that started before
      it and another starts after them. */
  ghost predicate IsCut(rest: seq<Byte>, s: seq<Byte>) { exists k: nat :: IsCutAt(rest, s, k) }

  predicate IsCutAt(rest: seq<Byte>, s: seq<Byte>, k: nat) {
    && k < UTF_MAX && k <= |s| && rest == s[k..]
    && (k > 0 ==> k < |s| && IsRuneStart(s[k]) && forall j :: 0 <= j < k ==> !IsRuneStart(s[j]))
    && (k == 0 ==> s == [] || IsRuneStart(s[0]) || forall j :: 0 <= j < |s| && j < UTF_MAX ==> !IsRuneStart(s[j]))
  }

  /** Whatever the bytes, whole characters or not. */
  lemma {:induction false} TrimmedIsCut(s: seq<Byte>, i: nat)
    requires i <= |s| && i <= UTF_MAX && forall j :: 0 <= j < i ==> !IsRuneStart(s[j])
    ensures IsCut(TrimmedFrom(s, i), s)
    decreases |s| - i
  {
    if i == |s| || i == UTF_MAX {
      assert IsCutAt(s, s, 0);
    } else if IsRuneStart(s[i]) {
      assert IsCutAt(s[i..], s, i);
    } else {
      TrimmedIsCut(s, i + 1);
    }
  }

  // On text in UTF-8 the trimming drops what is left of a character cut in two, and nothing else.

  /** A character: a byte that starts one and up to three that go on with it. */
  predicate IsCharacter(c: seq<Byte>) {
    1 <= |c| <= UTF_MAX && IsRuneStart(c[0]) && forall i :: 1 <= i < |c| ==> !IsRuneStart(c[i])
  }

  predicate AreCharacters(chars: seq<seq<Byte>>) {
    forall i :: 0 <= i < |chars| ==> IsCharacter(chars[i])
  }

  function Flat(chars: seq<seq<Byte>>): seq<Byte> {
    if chars == [] then [] else chars[0] + Flat(chars[1..])
  }

  lemma {:induction false} TrimsTo(s: seq<Byte>, i: nat, j: nat)
    requires i <= j < |s| && j < UTF_MAX && IsRuneStart(s[j]) && forall k :: i <= k < j ==> !IsRuneStart(s[k])
    ensures TrimmedFrom(s, i) == s[j..]
    decreases j - i
  {
    if i < j {
      TrimsTo(s, i + 1, j);
    }
  }

  /** A text cut anywhere is trimmed to whole characters, so long as the last of them is whole. */
  lemma {:induction false} TrimsToACharacter(chars: seq<seq<Byte>>, n: nat) returns (k: nat)
    requires AreCharacters(chars) && chars != [] && |chars[|chars| - 1]| <= n <= |Flat(chars)|
    ensures k <= |chars| && Trimmed(Last(Flat(chars), n)) == Flat(chars[k..])
    ensures |Flat(chars[k..])| <= n < |Flat(chars[k..])| + UTF_MAX
  {
    var s, first, rest := Flat(chars), chars[0], chars[1..];
    var dropped := |s| - n;
    if dropped >= |first| {
      assert Last(s, n) == Last(Flat(rest), n);
      assert rest[|rest| - 1] == chars[|chars| - 1];
      k := TrimsToACharacter(rest, n);
      assert rest[k..] == chars[k + 1..];
      k := k + 1;
    } else if dropped == 0 {
      TrimsTo(s, 0, 0);
      k := 0;
    } else {
      var cut := first[dropped..];
      assert Last(s, n) == cut + Flat(rest);
      assert rest != [] by {
        assert rest == [] ==> s == first;
      }
      assert Flat(rest)[0] == rest[0][0];
      TrimsTo(cut + Flat(rest), 0, |cut|);
      k := 1;
    }
  }

  class Tail {
    const limit: int
    var ring: array?<Byte>
    var next: nat
    var wrapped: bool
    /** Everything ever written. */
    ghost var written: seq<Byte>

    constructor (limit: int)
      ensures Valid() && this.limit == limit && written == [] && ring == null
    {
      this.limit, ring, next, wrapped, written := limit, null, 0, false, [];
    }

    function Limit(): (n: nat)
      ensures n > 0
    {
      if limit > 0 then limit else TAIL_BYTES
    }

    ghost predicate Valid()
      reads this, ring
    {
      if ring == null then next == 0 && !wrapped && written == []
      else ring.Length == Limit() && Keeps(ring[..], next, wrapped, written)
    }

    method Write(p: seq<Byte>) returns (n: nat)
      requires Valid()
      modifies this, ring
      ensures Valid() && written == old(written) + p && n == |p| && ring != null
      ensures fresh(ring) || ring == old(ring)
    {
      if ring == null {
        ring := new Byte[Limit()](_ => 0);
        assert ring[..][..0] == [];
      }
      n := |p|;
      var left := p;
      ghost var before := written;
      if |left| >= ring.Length {
        left := left[|left| - ring.Length..];
      }
      ghost var kept := left;
      assert Last(before + kept, ring.Length) == Last(before + p, ring.Length);
      CopyIn(left);
      written := before + p;
    }

    /** The loop that copies a write in, from where the last one ended and on from the start of the ring. */
    method CopyIn(p: seq<Byte>)
      requires Valid() && ring != null
      modifies this`next, this`wrapped, this`written, ring
      ensures Valid() && written == old(written) + p
    {
      var left := p;
      while left != []
        invariant Valid() && written + left == old(written) + p
        decreases |left|
      {
        var n := if |left| <= ring.Length - next then |left| else ring.Length - next;
        assert written + left == written + left[..n] + left[n..];
        CopyChunk(left[..n]);
        left := left[n..];
      }
    }

    method CopyChunk(chunk: seq<Byte>)
      requires Valid() && ring != null && next + |chunk| <= ring.Length
      modifies this`next, this`wrapped, this`written, ring
      ensures Valid() && written == old(written) + chunk
    {
      CopyKeeps(ring[..], next, wrapped, written, chunk);
      ghost var copied := Copied(ring[..], next, chunk);
      forall i | 0 <= i < |chunk| {
        ring[next + i] := chunk[i];
      }
      assert ring[..] == copied;
      written, next := written + chunk, next + |chunk|;
      if next == ring.Length {
        next, wrapped := 0, true;
      }
    }

    /** The last bytes written, up to the limit, and then from the first whole character. */
    method Text() returns (text: seq<Byte>)
      requires Valid()
      ensures text == if |written| < Limit() then written else Trimmed(Last(written, Limit()))
      ensures |written| >= Limit() ==> IsCut(text, Last(written, Limit()))
    {
      if ring == null {
        return [];
      } else if !wrapped {
        return ring[..next];
      }
      text := StartOnCharacter(ring[next..] + ring[..next]);
    }

    /** The same without the line the ring cut in two. */
    method WholeLines() returns (text: seq<Byte>)
      requires Valid()
      ensures |written| < Limit() ==> text == written
      ensures |written| >= Limit() ==> IsPastFirst(text, Trimmed(Last(written, Limit())), NEWLINE)
    {
      text := Text();
      if wrapped {
        for i := 0 to |text|
          invariant NEWLINE !in text[..i]
        {
          if text[i] == NEWLINE {
            return text[i + 1..];
          }
        }
      }
    }
  }

  /** What follows the first of these bytes, or everything if there is none. */
  predicate IsPastFirst(rest: seq<Byte>, text: seq<Byte>, b: Byte) {
    if b in text then exists k :: 0 <= k < |text| && text[k] == b && b !in text[..k] && rest == text[k + 1..] else rest == text
  }
}

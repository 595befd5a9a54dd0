/** The checksums that lib/bmv2/bmv2_net.cc writes into an IPv4/UDP frame, against the sums
    that a receiver computes (RFC 1071, section 3.1 of RFC 791, RFC 768). */
module Checksums {

  type Byte = x: int | 0 <= x < 256

  const IP := 14        // offset of the IP header in the frame
  const UDP := 34       // offset of the UDP header

  // ---- One's complement sums, as RFC 1071 defines them --------------------------------

  function Word(hi: Byte, lo: Byte): (w: nat)
    ensures w < 0x1_0000
  {
    hi * 256 + lo
  }

  /** Addition of 16-bit words with end-around carry. */
  function OnesAdd(a: nat, b: nat): nat {
    if a + b >= 0x1_0000 then a + b - 0xFFFF else a + b
  }

  /** The one's complement sum of the big-endian words of `s`; an odd byte is padded. */
  function OnesSum(s: seq<Byte>): nat {
    if s == [] then 0
    else if |s| == 1 then Word(s[0], 0)
    else OnesAdd(Word(s[0], s[1]), OnesSum(s[2..]))
  }

  // ---- Plain sums ---------------------------------------------------------------------

  /** The plain sum of the words, and the 16-bit value that folding makes of a sum. */
  function WordSum(s: seq<Byte>): nat {
    if s == [] then 0
    else if |s| == 1 then Word(s[0], 0)
    else Word(s[0], s[1]) + WordSum(s[2..])
  }

  function Residue(n: nat): nat {
    if n == 0 then 0 else 1 + (n - 1) % 0xFFFF
  }

  lemma ResidueAdd(a: nat, b: nat)
    requires a < 0x1_0000
    ensures OnesAdd(a, Residue(b)) == Residue(a + b)
  {
    var k := if b == 0 then 0 else (b - 1) / 0xFFFF;
    assert b == 0xFFFF * k + Residue(b);
    assert a + b == 0xFFFF * k + (a + Residue(b));
  }

  /** Carries may be added around at the end. */
  lemma {:induction false} OnesSumIsResidue(s: seq<Byte>)
    ensures OnesSum(s) == Residue(WordSum(s))
  {
    if |s| >= 2 {
      OnesSumIsResidue(s[2..]);
      ResidueAdd(Word(s[0], s[1]), WordSum(s[2..]));
    }
  }

  lemma {:induction false} WordSumConcat(a: seq<Byte>, b: seq<Byte>)
    requires |a| % 2 == 0
    ensures WordSum(a + b) == WordSum(a) + WordSum(b)
  {
    if a == [] {
      assert a + b == b;
    } else {
      assert (a + b)[2..] == a[2..] + b;
      WordSumConcat(a[2..], b);
    }
  }

  lemma {:induction false} WordSumBound(s: seq<Byte>)
    ensures WordSum(s) <= 0xFFFF * ((|s| + 1) / 2)
  {
    if |s| >= 2 {
      WordSumBound(s[2..]);
    }
  }

  lemma WordSumTwo(hi: Byte, lo: Byte)
    ensures WordSum([hi, lo]) == Word(hi, lo) && WordSum([hi]) == Word(hi, 0)
  {
    assert [hi, lo][2..] == [];
  }

  /** A word more. */
  lemma WordSumNext(s: seq<Byte>, i: nat)
    requires i % 2 == 0 && i < |s|
    ensures if i + 1 < |s| then WordSum(s[..i + 2]) == WordSum(s[..i]) + Word(s[i], s[i + 1])
            else WordSum(s) == WordSum(s[..i]) + Word(s[i], 0)
  {
    hide WordSum, Word;
    if i + 1 < |s| {
      assert s[..i + 2] == s[..i] + [s[i], s[i + 1]];
      WordSumConcat(s[..i], [s[i], s[i + 1]]);
      WordSumTwo(s[i], s[i + 1]);
    } else {
      assert s == s[..i] + [s[i]];
      WordSumConcat(s[..i], [s[i]]);
      WordSumTwo(s[i], 0);
    }
  }

  /** A word in the middle, at an even place. */
  lemma WordSumMiddle(a: seq<Byte>, hi: Byte, lo: Byte, b: seq<Byte>)
    requires |a| % 2 == 0
    ensures WordSum(a + ([hi, lo] + b)) == WordSum(a) + Word(hi, lo) + WordSum(b)
  {
    hide WordSum, Word;
    WordSumConcat(a, [hi, lo] + b);
    WordSumConcat([hi, lo], b);
    WordSumTwo(hi, lo);
  }

  /** Writing a word into a zero field adds it to the sum. */
  lemma WordSumWrite(s: seq<Byte>, k: nat, w: nat)
    requires k % 2 == 0 && k + 1 < |s| && s[k] == s[k + 1] == 0 && w < 0x1_0000
    ensures WordSum(Put(s, k, w)) == WordSum(s) + w
  {
    hide WordSum;
    var hi: Byte, lo: Byte := w / 256, w % 256;
    WordSumMiddle(s[..k], 0, 0, s[k + 2..]);
    WordSumMiddle(s[..k], hi, lo, s[k + 2..]);
    assert s == s[..k] + ([0, 0] + s[k + 2..]);
    assert Put(s, k, w) == s[..k] + ([hi, lo] + s[k + 2..]);
  }

  /** The complement of the sum brings the sum to 0xFFFF, also with 0 sent as 0xFFFF. */
  lemma ComplementCompletes(n: nat, c: nat)
    requires c == 0xFFFF - Residue(n) || (c == 0xFFFF && Residue(n) == 0xFFFF)
    ensures Residue(n + c) == 0xFFFF
  {
    var k := if n == 0 then 0 else (n - 1) / 0xFFFF;
    assert n == 0xFFFF * k + Residue(n);
    var m := if c == 0xFFFF && Residue(n) == 0xFFFF then k + 1 else k;
    assert n + c == 0xFFFF * m + 0xFFFF;
    assert (n + c - 1) == 0xFFFF * m + 0xFFFE;
  }

  // ---- The code -----------------------------------------------------------------------

  /** 32-bit unsigned addition. */
  function Add32(a: nat, b: nat): nat {
    (a + b) % 0x1_0000_0000
  }

  /** `static_cast<uint16_t>(~f)` for a 32-bit `f`. */
  function Complement16(f: nat): nat
    requires f < 0x1_0000_0000
  {
    (0xFFFF_FFFF - f) % 0x1_0000
  }

  /** Folding ends and keeps the value modulo 0xFFFF, zero apart from its multiples. */
  method ChecksumFold(sum: nat) returns (r: nat)
    requires sum < 0x1_0000_0000
    ensures r == Residue(sum) && r < 0x1_0000
  {
    r := sum;
    while r / 0x1_0000 != 0
      invariant r < 0x1_0000_0000 && Residue(r) == Residue(sum)
      decreases r
    {
      FoldOnce(r);
      r := r % 0x1_0000 + r / 0x1_0000;
    }
  }

  lemma FoldOnce(n: nat)
    ensures Residue(n % 0x1_0000 + n / 0x1_0000) == Residue(n)
  {
    var q, r := n / 0x1_0000, n % 0x1_0000;
    assert n == 0xFFFF * q + (q + r);
    if q + r > 0 {
      assert n - 1 == 0xFFFF * q + (q + r - 1);
    }
  }

  /** The pseudo header of RFC 768 for a UDP datagram of `len` bytes. */
  function PseudoHeader(ip: seq<Byte>, len: nat): seq<Byte>
    requires |ip| >= 20 && len < 0x1_0000
  {
    ip[12..20] + [0, 17, len / 256, len % 256]
  }

  function Prefix(s: seq<Byte>, i: nat): seq<Byte> {
    if i <= |s| then s[..i] else s
  }

  /** The plain sum of some words of the frame, as the loops compute it. */
  method SumWords(frame: array<Byte>, start: nat, len: nat, sum0: nat) returns (sum: nat)
    requires start + len <= frame.Length && sum0 + 0xFFFF * ((len + 1) / 2) < 0x1_0000_0000
    ensures sum == sum0 + WordSum(frame[start..start + len]) <= sum0 + 0xFFFF * ((len + 1) / 2)
  {
    hide WordSum, Word;
    sum := sum0;
    ghost var s := frame[start..start + len];
    WordSumBound(s[..0]);
    var i := 0;
    while i < len
      invariant i % 2 == 0 && i <= len + 1
      invariant sum == sum0 + WordSum(Prefix(s, i)) < 0x1_0000_0000
    {
      WordSumNext(s, i);
      WordSumBound(Prefix(s, i + 2));
      if i + 1 < len {
        sum := Add32(sum, Word(frame[start + i], frame[start + i + 1]));
      } else {
        sum := Add32(sum, Word(frame[start + i], 0));
      }
      i := i + 2;
    }
    assert Prefix(s, i) == s;
    WordSumBound(s);
  }

  /** `s` with the word `w` at `k`, in network order. */
  function Put(s: seq<Byte>, k: nat, w: nat): seq<Byte>
    requires k + 1 < |s| && w < 0x1_0000
  {
    var hi: Byte, lo: Byte := w / 256, w % 256;
    s[k := hi][k + 1 := lo]
  }

  /** Write a 16-bit word in network order. */
  method PutWord(frame: array<Byte>, at: nat, w: nat)
    requires at + 1 < frame.Length && w < 0x1_0000
    modifies frame
    ensures frame[at] == w / 256 && frame[at + 1] == w % 256
    ensures forall k :: 0 <= k < frame.Length && k != at && k != at + 1 ==> frame[k] == old(frame[k])
  {
    frame[at] := w / 256;
    frame[at + 1] := w % 256;
  }

  lemma PseudoSum(ip: seq<Byte>, len: nat)
    requires |ip| >= 20 && len < 0x1_0000
    ensures WordSum(PseudoHeader(ip, len)) == WordSum(ip[12..20]) + 17 + len
  {
    var rest: seq<Byte> := [0, 17, len / 256, len % 256];
    WordSumConcat(ip[12..20], rest);
    assert rest == [0, 17] + [len / 256, len % 256];
    WordSumConcat([0, 17], [len / 256, len % 256]);
    WordSumTwo(0, 17);
    WordSumTwo(len / 256, len % 256);
  }

  /** Completing a sum: `base` from elsewhere, `s` with a zero field at `k`. */
  lemma Completed(base: nat, s: seq<Byte>, k: nat, c: nat)
    requires k % 2 == 0 && k + 1 < |s| && s[k] == s[k + 1] == 0 && c < 0x1_0000
    requires var f := Residue(base + WordSum(s));
             c == 0xFFFF - f || (c == 0xFFFF && f == 0xFFFF)
    ensures Residue(base + WordSum(Put(s, k, c))) == 0xFFFF
  {
    WordSumWrite(s, k, c);
    ComplementCompletes(base + WordSum(s), c);
  }

  /** The IP header checksum. */
  method FixIpChecksum(frame: array<Byte>)
    requires UDP <= frame.Length
    modifies frame
    ensures OnesSum(frame[IP..IP + 20]) == 0xFFFF
    ensures forall k :: 0 <= k < frame.Length && k !in {IP + 10, IP + 11} ==> frame[k] == old(frame[k])
  {
    PutWord(frame, IP + 10, 0);
    ghost var s := frame[IP..IP + 20];
    var sum := SumWords(frame, IP, 20, 0);
    var folded := ChecksumFold(sum);
    var csum := Complement16(folded);
    PutWord(frame, IP + 10, csum);
    assert frame[IP..IP + 20] == Put(s, 10, csum);
    Completed(0, s, 10, csum);
    OnesSumIsResidue(frame[IP..IP + 20]);
  }

  /** The sum over the pseudo header. */
  method SumPseudoHeader(frame: array<Byte>, udpLen: nat) returns (sum: nat)
    requires udpLen <= 0xFFFF && UDP <= frame.Length
    ensures sum == WordSum(PseudoHeader(frame[IP..UDP], udpLen)) < 6 * 0x1_0000
  {
    hide WordSum;
    sum := SumWords(frame, IP + 12, 8, 0);
    sum := Add32(sum, 17);
    sum := Add32(sum, udpLen);
    assert frame[IP..UDP][12..20] == frame[IP + 12..IP + 20];
    PseudoSum(frame[IP..UDP], udpLen);
  }

  /** The UDP checksum. */
  method FixUdpChecksum(frame: array<Byte>, udpLen: nat)
    requires 8 <= udpLen <= 0xFFFF && UDP + udpLen <= frame.Length
    modifies frame
    ensures OnesSum(PseudoHeader(frame[IP..UDP], udpLen) + frame[UDP..UDP + udpLen]) == 0xFFFF
    ensures Word(frame[UDP + 6], frame[UDP + 7]) != 0
    ensures forall k :: 0 <= k < frame.Length && k !in {UDP + 6, UDP + 7} ==> frame[k] == old(frame[k])
  {
    hide OnesSum, WordSum, PseudoHeader, Residue;
    PutWord(frame, UDP + 6, 0);
    ghost var ip, s := frame[IP..UDP], frame[UDP..UDP + udpLen];
    ghost var header := PseudoHeader(ip, udpLen);
    var sum := SumPseudoHeader(frame, udpLen);
    sum := SumWords(frame, UDP, udpLen, sum);
    var folded := ChecksumFold(sum);
    var csum := Complement16(folded);
    if csum == 0 {
      csum := 0xFFFF;
    }
    Completed(WordSum(header), s, 6, csum);
    PutWord(frame, UDP + 6, csum);
    assert frame[UDP..UDP + udpLen] == Put(s, 6, csum);
    assert frame[IP..UDP] == ip;
    ReceiverSum(ip, udpLen, Put(s, 6, csum));
  }

  lemma ReceiverSum(ip: seq<Byte>, len: nat, udp: seq<Byte>)
    requires |ip| >= 20 && len < 0x1_0000
    ensures OnesSum(PseudoHeader(ip, len) + udp) == Residue(WordSum(PseudoHeader(ip, len)) + WordSum(udp))
  {
    hide WordSum, OnesSum, Residue;
    WordSumConcat(PseudoHeader(ip, len), udp);
    OnesSumIsResidue(PseudoHeader(ip, len) + udp);
  }

  /** After the fix a receiver's sums over the IP header and over pseudo header and datagram
      are both 0xFFFF, the UDP checksum is not sent as zero, and only the two checksum fields
      have changed. */
  method FixIpv4UdpChecksums(frame: array<Byte>, postSize: nat)
    requires 8 + postSize <= 0xFFFF && UDP + 8 + postSize <= frame.Length
    modifies frame
    ensures OnesSum(frame[IP..IP + 20]) == 0xFFFF
    ensures OnesSum(PseudoHeader(frame[IP..UDP], 8 + postSize) + frame[UDP..UDP + 8 + postSize]) == 0xFFFF
    ensures Word(frame[UDP + 6], frame[UDP + 7]) != 0
    ensures forall k :: 0 <= k < frame.Length && k !in {IP + 10, IP + 11, UDP + 6, UDP + 7} ==> frame[k] == old(frame[k])
  {
    hide OnesSum;
    FixIpChecksum(frame);
    ghost var ip := frame[IP..IP + 20];
    FixUdpChecksum(frame, 8 + postSize);
    assert frame[IP..IP + 20] == ip;
  }
}

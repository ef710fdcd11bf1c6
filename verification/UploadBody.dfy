/** The body of one upload: HTTPUploaderData. */
module UploadBody {
  import opened Basics
  import Transfer
  import TransferResults
  import UploadPlan

  const CHARS: string := "0123456789ABCDEFGHIJKLMNOPQRSTUVWXYZ"
  const PREFIX: string := "content1="

  // round(n / 36.0): to nearest, a half to even
  function Round36(n: nat): nat {
    var q, r := n / 36, n % 36;
    if r < 18 || (r == 18 && q % 2 == 0) then q else q + 1
  }

  /** Round36 is the nearest number of rows, the even one of two that are as near. */
  lemma Round36Meaning(n: nat)
    ensures -18 <= n - 36 * Round36(n) <= 18
    ensures n - 36 * Round36(n) == 18 || n - 36 * Round36(n) == -18 ==> Round36(n) % 2 == 0
  {
    var q, r := n / 36, n % 36;
    assert n == 36 * q + r;
  }

  function Repeat(s: string, n: nat): string {
    if n == 0 then [] else s + Repeat(s, n - 1)
  }

  // Python's s[0:stop]
  function Cut(s: string, stop: int): string {
    if stop >= |s| then s else if stop >= 0 then s[..stop] else if |s| + stop >= 0 then s[..|s| + stop] else []
  }

  function Body(length: nat): string {
    PREFIX + Cut(Repeat(CHARS, Round36(length)), length - 9)
  }

  lemma {:induction false} RepeatLength(s: string, n: nat)
    requires |s| == 36
    ensures |Repeat(s, n)| == 36 * n
  {
    if n > 0 {
      RepeatLength(s, n - 1);
    }
  }

  lemma {:induction false} RepeatAt(s: string, n: nat, k: nat)
    requires |s| == 36 && k < 36 * n
    ensures |Repeat(s, n)| == 36 * n && Repeat(s, n)[k] == s[k % 36]
  {
    RepeatLength(s, n);
    if k >= 36 {
      RepeatAt(s, n - 1, k - 36);
      assert (k - 36) % 36 == k % 36;
    }
  }

  /** The body is never longer than the declared length and at most 9 bytes short of it, for every length that
      holds the prefix; and for no other length. */
  lemma BodyLength(length: nat)
    ensures length >= 9 ==> |Body(length)| == Min(length, 36 * Round36(length) + 9)
    ensures |Body(length)| <= length <==> length >= 9
    ensures length >= 9 ==> length - 9 <= |Body(length)|
  {
    RepeatLength(CHARS, Round36(length));
    assert |PREFIX| == 9;
    var q, r := length / 36, length % 36;
    assert length == 36 * q + r;
  }

  /** It is exactly as long as declared when the length, past whole rows of 36, is at most 9 or rounds up. */
  lemma BodyIsFullIff(length: nat)
    requires length >= 9
    ensures |Body(length)| == length <==> length % 36 <= 9 || Round36(length) == length / 36 + 1
  {
    BodyLength(length);
    var q, r := length / 36, length % 36;
    assert length == 36 * q + r;
  }

  /** Of the configured sizes only the second has a body that falls short, by seven bytes. */
  lemma ConfiguredBodies()
    ensures |Body(32768)| == 32768 && |Body(65536)| == 65536 - 7 && |Body(131072)| == 131072 && |Body(262144)| == 262144
    ensures |Body(524288)| == 524288 && |Body(1048576)| == 1048576 && |Body(7340032)| == 7340032
  {
    hide Body;
    BodyLength(32768);
    BodyLength(65536);
    BodyLength(131072);
    BodyLength(262144);
    BodyLength(524288);
    BodyLength(1048576);
    BodyLength(7340032);
  }

  /** After the prefix the digits and capital letters repeat. */
  lemma BodyContents(length: nat, k: nat)
    requires 9 <= length && 9 <= k < |Body(length)|
    ensures Body(length)[..9] == "content1="
    ensures var place := (k - 9) % 36;
            Body(length)[k] == if place < 10 then '0' + place as char else 'A' + (place - 10) as char
  {
    RepeatLength(CHARS, Round36(length));
    RepeatAt(CHARS, Round36(length), k - 9);
    CharsMeaning((k - 9) % 36);
  }

  lemma CharsMeaning(place: nat)
    requires place < 36
    ensures |CHARS| == 36
    ensures CHARS[place] == if place < 10 then '0' + place as char else 'A' + (place - 10) as char
  {
  }

  /** The file-like object the HTTP library reads the body from. */
  class HTTPUploaderData {
    const length: nat
    var data: Option<string>     // the BytesIO, once allocated
    var pos: nat                 // its read position
    var total: seq<nat>

    // What has been counted is what has been read.
    ghost predicate Valid()
      reads this
    {
      && (data.Some? ==> data.value == Body(length))
      && (data.None? ==> pos == 0)
      && pos <= |Body(length)|
      && Sum(total) == pos
      && total != [] && total[0] == 0
    }

    constructor (length: nat)
      ensures Valid() && this.length == length && data == None && total == [0] && pos == 0
    {
      this.length := length;
      data, pos, total := None, 0, [0];
    }

    method PreAllocate()
      requires Valid() && pos == 0
      modifies this`data
      ensures Valid() && data == Some(Body(length))
    {
      hide Round36, Cut;
      var multiplier := Round36(length);
      var content := "";
      for i := 0 to multiplier
        invariant content + Repeat(CHARS, multiplier - i) == Repeat(CHARS, multiplier)
      {
        assert content + (CHARS + Repeat(CHARS, multiplier - i - 1)) ==
            (content + CHARS) + Repeat(CHARS, multiplier - i - 1);
        content := content + CHARS;
      }
      assert content == Repeat(CHARS, multiplier);
      data := Some(PREFIX + Cut(content, length - 9));
    }

    /** Hands out the next n bytes (all that is left when n is negative) and counts them; nothing after the
        time is up. The chunks are consecutive, so no byte is sent or counted twice. */
    method Read(n: int, inTime: bool) returns (chunk: Option<string>)
      requires Valid()
      modifies this
      ensures Valid()
      ensures !inTime ==> chunk == None && pos == old(pos) && total == old(total) && data == old(data)
      ensures inTime ==>
                && old(pos) <= pos && chunk == Some(Body(length)[old(pos)..pos])
                && pos == (if n < 0 then |Body(length)| else Min(|Body(length)|, old(pos) + n))
                && total == old(total) + [pos - old(pos)]
    {
      hide Body;
      if !inTime {
        return None;
      }
      if data.None? {
        PreAllocate();
      }
      var left := |data.value| - pos;
      var size := if n < 0 then left else Min(n, left);
      var bytes := data.value[pos..pos + size];
      SumAppend(total, [|bytes|]);
      total := total + [|bytes|];
      pos := pos + size;
      chunk := Some(bytes);
    }

    /** What run reports as its result never exceeds the declared length. */
    lemma CountedWithinLength()
      requires Valid() && length >= 9
      ensures Sum(total) <= length
    {
    }
  }

  // ---- all uploads together ----

  lemma {:induction false} SumMonotone(xs: seq<nat>, ys: seq<nat>)
    requires |xs| <= |ys| && forall i :: 0 <= i < |xs| ==> xs[i] <= ys[i]
    ensures Sum(xs) <= Sum(ys)
  {
    if xs != [] {
      SumMonotone(xs[1..], ys[1..]);
    }
  }

  /** Thread i of the transfer engine reads its upload data object to the end, so the chunks it transfers are those
      the object counted after its initial zero. Then in every reachable state of the engine, whatever the
      interleaving and whatever updates are lost, the bytes reported never exceed the sum of the sizes. */
  lemma BytesSentBound(cfg: Transfer.Config, acts: seq<Transfer.Action>, uploads: seq<HTTPUploaderData>,
                       sizes: seq<nat>)
    requires |uploads| == |sizes| == |cfg.work|
    requires forall i :: 0 <= i < |uploads| ==>
               uploads[i].Valid() && uploads[i].length == sizes[i] >= 9 && uploads[i].total == [0] + cfg.work[i]
    requires Transfer.Exec(cfg, acts).Some?
    ensures Sum(Transfer.Exec(cfg, acts).value.finished) <= Sum(sizes)
  {
    TransferResults.FinishedIsPrefix(cfg, acts);
    var finished := Transfer.Exec(cfg, acts).value.finished;
    forall i | 0 <= i < |finished|
      ensures finished[i] <= sizes[i]
    {
      assert finished[i] == TransferResults.Totals(cfg.work)[i] == Sum(cfg.work[i]);
      assert ([0] + cfg.work[i])[1..] == cfg.work[i];
      uploads[i].CountedWithinLength();
    }
    SumMonotone(finished, sizes);
  }

  /** For the sizes of any configuration this needs no assumption on them. */
  lemma UploadBound(ratio: int, maxChunkCount: nat, c: UploadPlan.UploadConfig, cfg: Transfer.Config,
                    acts: seq<Transfer.Action>, uploads: seq<HTTPUploaderData>, sizes: seq<nat>)
    requires UploadPlan.GetConfig(ratio, maxChunkCount) == Some(c)
    requires sizes == UploadPlan.SliceTo(UploadPlan.Plan(c.sizes, c.count), c.uploadMax)
    requires |uploads| == |sizes| == |cfg.work|
    requires forall i :: 0 <= i < |uploads| ==>
               uploads[i].Valid() && uploads[i].length == sizes[i] && uploads[i].total == [0] + cfg.work[i]
    requires Transfer.Exec(cfg, acts).Some?
    ensures Sum(Transfer.Exec(cfg, acts).value.finished) <= Sum(sizes)
  {
    hide *;
    UploadPlan.RequestsHold(ratio, maxChunkCount, c);
    BytesSentBound(cfg, acts, uploads, sizes);
  }
}

// Attaching a file: the service worker streams it in base64 chunks, the page puts it together again.

module Attach {
  import opened Text
  import opened Base64

  const MAX_ATTACH_BYTES: nat := 32 * 1024 * 1024
  const CHUNK_BYTES: nat := 24 * 1024

  datatype Message = Meta(mediaType: string, filename: string) | Chunk(text: string) | End | Failure(error: string)

  function Flatten(chunks: seq<seq<Byte>>): seq<Byte> {
    if chunks == [] then [] else Flatten(chunks[..|chunks| - 1]) + chunks[|chunks| - 1]
  }

  lemma FlattenMore(chunks: seq<seq<Byte>>, c: seq<Byte>)
    ensures Flatten(chunks + [c]) == Flatten(chunks) + c
  {
    assert (chunks + [c])[..|chunks|] == chunks;
  }

  lemma FlattenNext(chunks: seq<seq<Byte>>, i: nat)
    requires i < |chunks|
    ensures Flatten(chunks[..i + 1]) == Flatten(chunks[..i]) + chunks[i]
  {
    assert chunks[..i + 1] == chunks[..i] + [chunks[i]];
    FlattenMore(chunks[..i], chunks[i]);
  }

  lemma FlattenNone()
    ensures Flatten([]) == []
  {
  }

  lemma {:induction false} FlattenPrefix(chunks: seq<seq<Byte>>, i: nat)
    requires i <= |chunks|
    ensures Flatten(chunks[..i]) <= Flatten(chunks)
  {
    if i < |chunks| {
      var n := |chunks| - 1;
      FlattenPrefix(chunks[..n], i);
      assert chunks[..n][..i] == chunks[..i];
      assert Flatten(chunks[..n]) <= Flatten(chunks);
    } else {
      assert chunks[..i] == chunks;
    }
  }

  // ---- shared helpers ---------------------------------------------------------------------

  /** `bytesFromBase64`; text that `atob` does not read makes it throw. */
  method BytesFromBase64(chunk: string) returns (bytes: Option<seq<Byte>>)
    ensures bytes.Some? <==> Readable(chunk)
    ensures forall sent: seq<Byte> ::
              WithoutBlanks(chunk) == Encode(Standard, sent)
              || WithoutBlanks(chunk) == Stripped(Encode(Standard, sent)) ==>
                bytes == Some(sent)
    ensures bytes == Atob(chunk)
  {
    AtobIff(chunk);
    forall sent: seq<Byte> |
      WithoutBlanks(chunk) == Encode(Standard, sent) || WithoutBlanks(chunk) == Stripped(Encode(Standard, sent))
      ensures Atob(chunk) == Some(sent)
    {
      AtobOfEncode(chunk, sent);
    }
    hide Atob, Encode, Readable, WithoutBlanks, Stripped;
    var binary := Atob(chunk);
    if binary.None? {
      return None;
    }
    var out := new Byte[|binary.value|](_ => 0);
    for i := 0 to |binary.value|
      invariant out[..i] == binary.value[..i]
    {
      out[i] := binary.value[i];
    }
    assert out[..] == out[..|binary.value|] && binary.value[..|binary.value|] == binary.value;
    bytes := Some(out[..]);
  }

  /** `concatChunks`: each chunk is set at the offset where the one before it ended. */
  method ConcatChunks(chunks: seq<seq<Byte>>, total: nat) returns (out: array<Byte>)
    requires total == |Flatten(chunks)|
    ensures fresh(out) && out[..] == Flatten(chunks)
  {
    out := new Byte[total](_ => 0);
    var offset := 0;
    for i := 0 to |chunks|
      invariant offset == |Flatten(chunks[..i])| <= total
      invariant out[..offset] == Flatten(chunks[..i])
    {
      FlattenPrefix(chunks, i + 1);
      assert chunks[..i + 1][..i] == chunks[..i];
      ghost var before := out[..offset];
      for k := 0 to |chunks[i]|
        invariant offset + |chunks[i]| <= total
        invariant out[..offset] == before && out[offset..offset + k] == chunks[i][..k]
      {
        out[offset + k] := chunks[i][k];
      }
      assert out[..offset + |chunks[i]|] == before + chunks[i];
      offset := offset + |chunks[i]|;
    }
    assert chunks[..|chunks|] == chunks;
  }

  // ---- the page -------------------------------------------------------------------------------

  const DEFAULT_TYPE := "application/octet-stream"
  const DEFAULT_NAME := "framenest-media.bin"

  /** What is put into the composer's file input. */
  datatype File = File(bytes: seq<Byte>, name: string, mediaType: string)

  /** The receiving end of the attach port. `composer` says whether a file input is there at the end. */
  class AttachReceiver {
    var chunks: seq<seq<Byte>>
    var total: nat
    var mediaType: string
    var filename: string
    var closed: bool
    const composer: bool
    var attached: Option<File>

    ghost predicate Valid()
      reads this
    {
      && total >= |Flatten(chunks)|
      && (!closed ==> total == |Flatten(chunks)| <= MAX_ATTACH_BYTES)
      && (attached.Some? ==> |attached.value.bytes| <= MAX_ATTACH_BYTES)
    }

    constructor (composer: bool)
      ensures Valid() && chunks == [] && total == 0 && !closed && attached.None? && this.composer == composer
      ensures mediaType == "application/octet-stream" && filename == "framenest-media.bin"
    {
      this.composer, chunks, total, closed, attached := composer, [], 0, false, None;
      mediaType, filename := DEFAULT_TYPE, DEFAULT_NAME;
    }

    /** One message from the port; a closed port delivers none. */
    method OnMessage(m: Message)
      requires Valid()
      modifies this
      ensures Valid()
      ensures old(closed) ==>
                && closed && chunks == old(chunks) && attached == old(attached)
                && mediaType == old(mediaType) && filename == old(filename)
      // only `Meta` names the file, and an empty name or type leaves the one there is
      ensures !old(closed) && m.Meta? ==>
                && filename == (if m.filename == "" then old(filename) else m.filename)
                && mediaType == (if m.mediaType == "" then old(mediaType) else m.mediaType)
      ensures !m.Meta? ==> mediaType == old(mediaType) && filename == old(filename)
      ensures !old(closed) ==>
                match m
                case Chunk(text) =>
                  var bytes := Atob(text);
                  if text == "" || bytes.None? then
                    chunks == old(chunks) && closed == old(closed) && attached == old(attached)
                  else
                    && attached == old(attached)
                    && closed == (old(total) + |bytes.value| > MAX_ATTACH_BYTES)
                    && chunks == if closed then old(chunks) else old(chunks) + [bytes.value]
                case End =>
                  chunks == old(chunks) && !closed
                  && attached == if composer then Some(File(Flatten(chunks), filename, mediaType)) else old(attached)
                case _ => chunks == old(chunks) && !closed && attached == old(attached)
    {
      if closed {
        return;
      }
      match m {
        case Meta(media, name) =>
          mediaType := if media != "" then media else mediaType;
          filename := if name != "" then name else filename;
        case Chunk(text) =>
          if text != "" {
            var bytes := BytesFromBase64(text);
            if bytes.Some? {
              total := total + |bytes.value|;
              if total > MAX_ATTACH_BYTES {
                closed := true;
                return;
              }
              FlattenMore(chunks, bytes.value);
              chunks := chunks + [bytes.value];
            }
          }
        case End =>
          if composer {
            var file := ConcatChunks(chunks, total);
            attached := Some(File(file[..], filename, mediaType));
          }
        case Failure(_) =>
      }
    }
  }

  // ---- the service worker -----------------------------------------------------------------------

  /** What the fetch stream delivers: pieces of any size, and then its end or an error. */
  datatype Stream = Stream(pieces: seq<seq<Byte>>, breaks: bool)

  datatype Transfer = Done | TooLarge | Invalid | AttachFailed

  /** Every chunk holds something, and no more than 24 KiB. */
  predicate Sliced(chunks: seq<seq<Byte>>) {
    forall i :: 0 <= i < |chunks| ==> 0 < |chunks[i]| <= 24576
  }

  /**
   * `transferAttach`, from the response on. `length` is its declared content length, `None` when there is
   * none or it is no number; `contentType` its content type, empty when there is none.
   */
  method TransferAttach(length: Option<nat>, contentType: string, stream: Stream, mediaType: string, filename: string,
                        page: AttachReceiver)
    returns (outcome: Transfer)
    requires page.Valid() && page.chunks == [] && !page.closed && page.attached.None?
    modifies page
    ensures page.Valid() && Sliced(page.chunks)
    // whatever way the stream is cut into pieces, the page attaches exactly its bytes under the name and type given
    ensures outcome.Done? ==>
              var name := if filename == "" then "framenest-media.bin" else filename;
              var kind := if contentType != "" then contentType
                          else if mediaType != "" then mediaType else old(page.mediaType);
              && !page.closed
              && page.attached == if page.composer then Some(File(Flatten(stream.pieces), name, kind)) else None
    // and nothing is attached otherwise
    ensures !outcome.Done? ==> page.attached.None?
    ensures outcome.Invalid? <==> length.None? || length.value == 0 || length.value > 33554432
    ensures outcome.TooLarge? <==> !outcome.Invalid? && |Flatten(stream.pieces)| > 33554432
    ensures outcome.AttachFailed? <==> !outcome.Invalid? && !outcome.TooLarge? && stream.breaks
    ensures outcome.Done? <==> length.Some? && 0 < length.value <= MAX_ATTACH_BYTES
                               && |Flatten(stream.pieces)| <= MAX_ATTACH_BYTES && !stream.breaks
  {
    if length.None? || length.value == 0 || length.value > MAX_ATTACH_BYTES {
      page.OnMessage(Failure("too_large_or_invalid"));
      return Invalid;
    }
    hide Flatten;
    FlattenNone();
    page.OnMessage(Meta(if contentType != "" then contentType else mediaType,
                        if filename != "" then filename else DEFAULT_NAME));
    ghost var name, kind := page.filename, page.mediaType;
    var seen := 0;
    for i := 0 to |stream.pieces|
      invariant page.Valid() && !page.closed && page.attached.None? && Sliced(page.chunks)
      invariant page.filename == name && page.mediaType == kind
      invariant Flatten(page.chunks) == Flatten(stream.pieces[..i])
                && seen == |Flatten(stream.pieces[..i])| <= MAX_ATTACH_BYTES
    {
      var value := stream.pieces[i];
      FlattenNext(stream.pieces, i);
      seen := seen + |value|;
      if seen > MAX_ATTACH_BYTES {
        FlattenPrefix(stream.pieces, i + 1);
        page.OnMessage(Failure("too_large"));
        return TooLarge;
      }
      SendSlices(value, page);
    }
    assert stream.pieces[..|stream.pieces|] == stream.pieces;
    if stream.breaks {
      page.OnMessage(Failure("attach_failed"));
      return AttachFailed;
    }
    page.OnMessage(End);
    outcome := Done;
  }

  /** One piece of the stream, in slices of at most `CHUNK_BYTES`. */
  method SendSlices(value: seq<Byte>, page: AttachReceiver)
    requires page.Valid() && !page.closed && |Flatten(page.chunks)| + |value| <= MAX_ATTACH_BYTES
    modifies page
    ensures page.Valid() && !page.closed && page.attached == old(page.attached)
    ensures page.mediaType == old(page.mediaType) && page.filename == old(page.filename)
    ensures Sliced(old(page.chunks)) ==> Sliced(page.chunks)
    ensures Flatten(page.chunks) == old(Flatten(page.chunks)) + value
  {
    hide Atob, Encode, Flatten, WithoutBlanks, Stripped;
    var offset := 0;
    while offset < |value|
      invariant 0 <= offset <= |value|
      invariant page.Valid() && !page.closed && page.attached == old(page.attached)
      invariant page.mediaType == old(page.mediaType) && page.filename == old(page.filename)
      invariant Sliced(old(page.chunks)) ==> Sliced(page.chunks)
      invariant Flatten(page.chunks) == old(Flatten(page.chunks)) + value[..offset]
    {
      var end := if offset + CHUNK_BYTES < |value| then offset + CHUNK_BYTES else |value|;
      var slice := value[offset..end];
      offset := offset + |slice|;
      EncodedHasNoBlanks(slice);
      AtobOfEncode(Encode(Standard, slice), slice);
      EncodeIsSomething(slice);
      FlattenMore(page.chunks, slice);
      SliceOnward(old(Flatten(page.chunks)), value, offset - |slice|, offset);
      page.OnMessage(Chunk(Encode(Standard, slice)));
    }
    assert value[..offset] == value;
  }

  lemma SliceOnward(before: seq<Byte>, value: seq<Byte>, i: nat, j: nat)
    requires i <= j <= |value|
    ensures before + value[..i] + value[i..j] == before + value[..j]
  {
  }

  lemma EncodeIsSomething(b: seq<Byte>)
    requires b != []
    ensures Encode(Standard, b) != ""
  {
  }
}

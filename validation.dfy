/**
 * The upload validator (`is_valid_audio_file`): an upload passes when it is
 * no larger than 25 MiB and its declared MIME type is on a fixed allow-list.
 */
module Validation {

  /** What the validator and the transcriber read of an uploaded file. */
  datatype Upload = Upload(name: string, mimeType: string, size: nat)

  /** 25 MiB in bytes. */
  const MaxFileSize: nat := 25 * 1024 * 1024

  /** The declared MIME types the validator lets through, in the source's order. */
  const AllowedTypes: seq<string> := ["audio/mpeg", "audio/wav", "audio/x-m4a", "audio/mp3"]

  /** The validator as written: the size check first, then the type check. */
  function IsValidAudioFile(f: Upload): (ok: bool)
    ensures ok <==> f.size <= 26214400 && f.mimeType in {"audio/mpeg", "audio/wav", "audio/x-m4a", "audio/mp3"}
  {
    if f.size > MaxFileSize then false
    else if f.mimeType !in AllowedTypes then false
    else true
  }

  /** The same two checks in the other order. */
  function IsValidTypeFirst(f: Upload): bool
  {
    if f.mimeType !in AllowedTypes then false
    else if f.size > MaxFileSize then false
    else true
  }

  /** Checking the type before the size gives the same verdict on every upload. */
  lemma CheckOrderIrrelevant(f: Upload)
    ensures IsValidTypeFirst(f) == IsValidAudioFile(f)
  {
  }

  /** Any upload over the limit is rejected, whatever its declared type. */
  lemma OversizeRejected(f: Upload)
    requires f.size > 26214400
    ensures !IsValidAudioFile(f)
  {
  }

  /** Any type off the allow-list is rejected, whatever the size. */
  lemma DisallowedTypeRejected(f: Upload)
    requires f.mimeType !in AllowedTypes
    ensures !IsValidAudioFile(f)
  {
  }

  /** The limit itself passes and one byte more fails: the comparison is a strict `>`. */
  lemma LimitIsInclusive(name: string, mimeType: string)
    requires mimeType in AllowedTypes
    ensures IsValidAudioFile(Upload(name, mimeType, 26214400))
    ensures !IsValidAudioFile(Upload(name, mimeType, 26214401))
  {
  }
}

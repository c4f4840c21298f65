/** The upload rules of the simulate-call routes: the audio-only file filter and the size limit. */
module Uploads {
  import opened Text

  /** The `fileSize` limit: 10 MiB. */
  const MaxUploadBytes: nat := 10 * 1024 * 1024

  /** The file part of a multipart request as the upload middleware sees it. */
  datatype UploadedFile = UploadedFile(mimetype: string, size: nat, path: string)

  /** What the upload middleware makes of a file part. The filter runs before the body is
      read, so a non-audio file is refused whatever its size. */
  datatype UploadVerdict = Accepted | NotAudio | TooLarge

  function CheckUpload(mimetype: string, size: nat): (v: UploadVerdict)
    ensures v.Accepted? <==> StartsWith(mimetype, "audio/") && size <= MaxUploadBytes
    ensures v.NotAudio? <==> !StartsWith(mimetype, "audio/")
    ensures v.TooLarge? <==> StartsWith(mimetype, "audio/") && size > MaxUploadBytes
  {
    if !StartsWith(mimetype, "audio/") then NotAudio
    else if size > MaxUploadBytes then TooLarge
    else Accepted
  }

  /** Shrinking an accepted file keeps it accepted. */
  lemma AcceptanceIsDownwardClosed(mimetype: string, size: nat, smaller: nat)
    requires CheckUpload(mimetype, size).Accepted? && smaller <= size
    ensures CheckUpload(mimetype, smaller).Accepted?
  {
  }

  /** Boundary cases of the two rules. */
  lemma UploadBoundaries()
    ensures CheckUpload("audio/mpeg", MaxUploadBytes) == Accepted
    ensures CheckUpload("audio/mpeg", MaxUploadBytes + 1) == TooLarge
    ensures CheckUpload("audio", 0) == NotAudio
    ensures CheckUpload("video/mp4", 0) == NotAudio
    ensures CheckUpload("Audio/mpeg", 0) == NotAudio
  {
    assert "audio/mpeg"[..6] == "audio/";
    assert "video/mp4"[..6] != "audio/" by { assert "video/mp4"[0] != "audio/"[0]; }
    assert "Audio/mpeg"[..6] != "audio/" by { assert "Audio/mpeg"[0] != "audio/"[0]; }
  }
}

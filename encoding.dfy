/**
 * The recorder's encoding choice: an ordered list of candidate MIME types per
 * recording type, each asked about with `MediaRecorder.isTypeSupported`
 * (the parameter `supported` here) until one is supported; when none is,
 * no MIME type is requested and the platform picks its default.
 */
module Encoding {
  import opened Opt

  const Mp4Avc := "video/mp4; codecs=avc1.42E01E"
  const WebmVp9 := "video/webm; codecs=vp9"
  const WebmVp8 := "video/webm; codecs=vp8"
  const WebmOpus := "audio/webm; codecs=opus"
  const OggOpus := "audio/ogg; codecs=opus"

  /** The candidates in the order they are tried: opus for audio, H.264 then VP9 then VP8 for everything else. */
  function Candidates(recordingType: string): seq<string>
  {
    if recordingType == "audio" then [WebmOpus, OggOpus] else [Mp4Avc, WebmVp9, WebmVp8]
  }

  /** The first supported candidate, or `None` when the platform supports none of them. */
  function FirstSupported(candidates: seq<string>, supported: string -> bool): (r: Option<string>)
    ensures r.Some? ==> r.value in candidates && supported(r.value)
    ensures r.None? <==> forall c :: c in candidates ==> !supported(c)
  {
    if candidates == [] then None
    else if supported(candidates[0]) then Some(candidates[0])
    else FirstSupported(candidates[1..], supported)
  }

  /** The candidates the platform is asked about: up to and including the first supported one. */
  function Asked(candidates: seq<string>, supported: string -> bool): seq<string>
  {
    if candidates == [] then []
    else if supported(candidates[0]) then [candidates[0]]
    else [candidates[0]] + Asked(candidates[1..], supported)
  }

  /**
   * When `candidates[k]` is the first supported candidate, it is the choice,
   * and exactly the candidates up to it were asked about.
   */
  lemma {:induction false} FirstSupportedAt(candidates: seq<string>, supported: string -> bool, k: nat)
    requires k < |candidates| && supported(candidates[k])
    requires forall j :: 0 <= j < k ==> !supported(candidates[j])
    ensures FirstSupported(candidates, supported) == Some(candidates[k])
    ensures Asked(candidates, supported) == candidates[..k + 1]
  {
    if k > 0 {
      assert !supported(candidates[0]);
      FirstSupportedAt(candidates[1..], supported, k - 1);
      assert [candidates[0]] + candidates[1..][..k] == candidates[..k + 1];
    }
  }

  /** When no candidate is supported, every candidate was asked about and none is chosen. */
  lemma {:induction false} NoneSupported(candidates: seq<string>, supported: string -> bool)
    requires forall c :: c in candidates ==> !supported(c)
    ensures FirstSupported(candidates, supported) == None
    ensures Asked(candidates, supported) == candidates
  {
    if candidates != [] {
      assert candidates[0] in candidates;
      NoneSupported(candidates[1..], supported);
      assert [candidates[0]] + candidates[1..] == candidates;
    }
  }

  /**
   * `options.mimeType` as the nested ifs of the start handler leave it, and
   * the MIME types they asked the platform about, in order. The initial
   * H.264 value is overwritten for audio before it is ever asked about.
   */
  method ChooseEncoding(recordingType: string, supported: string -> bool)
    returns (mimeType: Option<string>, asked: seq<string>)
    ensures mimeType == FirstSupported(Candidates(recordingType), supported)
    ensures asked == Asked(Candidates(recordingType), supported)
    ensures recordingType == "audio" ==> Mp4Avc !in asked
  {
    var candidates := Candidates(recordingType);
    mimeType := Some(Mp4Avc);
    asked := [];
    if recordingType == "audio" {
      mimeType := Some(WebmOpus);
      asked := asked + [WebmOpus];
      if !supported(WebmOpus) {
        mimeType := Some(OggOpus);
        asked := asked + [OggOpus];
        if !supported(OggOpus) {
          mimeType := None;
          NoneSupported(candidates, supported);
        } else {
          FirstSupportedAt(candidates, supported, 1);
        }
      } else {
        FirstSupportedAt(candidates, supported, 0);
      }
      assert Mp4Avc[0] != WebmOpus[0] && Mp4Avc[0] != OggOpus[0];
    } else {
      asked := asked + [Mp4Avc];
      if !supported(Mp4Avc) {
        mimeType := Some(WebmVp9);
        asked := asked + [WebmVp9];
        if !supported(WebmVp9) {
          mimeType := Some(WebmVp8);
          asked := asked + [WebmVp8];
          if !supported(WebmVp8) {
            mimeType := None;
            NoneSupported(candidates, supported);
          } else {
            FirstSupportedAt(candidates, supported, 2);
          }
        } else {
          FirstSupportedAt(candidates, supported, 1);
        }
      } else {
        FirstSupportedAt(candidates, supported, 0);
      }
    }
  }

  /** Every candidate is a `type/subtype` MIME type. */
  lemma CandidatesHaveSlash(recordingType: string)
    ensures forall c :: c in Candidates(recordingType) ==> '/' in c
  {
    assert Mp4Avc[5] == '/' && WebmVp9[5] == '/' && WebmVp8[5] == '/';
    assert WebmOpus[5] == '/' && OggOpus[5] == '/';
  }
}

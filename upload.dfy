/** The media upload gateway's client side (`uploadMedia`): one multipart
    request holding the photos, the audio and the video that were asked for.
    The HTTP exchange itself is an oracle: the server's reply is a parameter. */
module Upload {
  import opened Common

  /** `{ photos?, audio?, video? }`; `None` is `null`/`undefined`. */
  datatype UploadRequest = UploadRequest(photos: Option<seq<File>>, audio: Option<File>, video: Option<File>)

  /** The gateway's `data.data`: keys for what was uploaded. `photos` may be
      missing from the reply, which is not the same as an empty list. */
  datatype UploadResult = UploadResult(photos: Option<seq<MediaKey>>, audio: Option<MediaKey>, video: Option<MediaKey>)

  /** One `formData.append(name, file)` entry. */
  datatype FormField = FormField(name: string, file: File)

  const MaxPhotos: nat := 10
  const TooManyPhotosError := "You can upload up to 10 photos."

  /** The early rejection: a non-empty photo list longer than ten. */
  predicate TooManyPhotos(req: UploadRequest)
  {
    req.photos.Some? && |req.photos.value| > 0 && |req.photos.value| > MaxPhotos
  }

  /** The number of photos a request carries. */
  function PhotoCount(req: UploadRequest): nat
  {
    if req.photos.Some? then |req.photos.value| else 0
  }

  /** How a gateway that stored every file answers: one non-empty key per
      photo, in the order sent; an audio key exactly when an audio file was
      sent, and likewise for video. The client code does not check this;
      lemmas that follow a request to its end assume it. */
  predicate Answers(req: UploadRequest, res: UploadResult)
  {
    && (PhotoCount(req) == 0 ==> res.photos.None? || res.photos == Some([]))
    && (PhotoCount(req) > 0 ==>
          res.photos.Some? && |res.photos.value| == PhotoCount(req)
          && forall i :: 0 <= i < |res.photos.value| ==> res.photos.value[i] != "")
    && (Truthy(res.audio) <==> req.audio.Some?)
    && (Truthy(res.video) <==> req.video.Some?)
  }

  /** One "photos" entry per file, in the order given. */
  function PhotoFields(ps: seq<File>): (fs: seq<FormField>)
    ensures |fs| == |ps|
    ensures forall i :: 0 <= i < |ps| ==> fs[i] == FormField("photos", ps[i])
  {
    if ps == [] then [] else [FormField("photos", ps[0])] + PhotoFields(ps[1..])
  }

  /** The multipart body of an accepted request: photos, then audio, then video. */
  function ExpectedFields(req: UploadRequest): seq<FormField>
  {
    PhotoPart(req) + OptionalField("audio", req.audio) + OptionalField("video", req.video)
  }

  /** The "photos" entries of the body, none when the list is `null`. */
  function PhotoPart(req: UploadRequest): seq<FormField>
  {
    if req.photos.Some? then PhotoFields(req.photos.value) else []
  }

  /** What `uploadMedia` resolves to: a rejection before anything is sent when
      there are too many photos, else the server's reply unchanged. */
  function UploadOutcome(req: UploadRequest, reply: Result<UploadResult>): (r: Result<UploadResult>)
    ensures TooManyPhotos(req) ==> r == Failure(Thrown(TooManyPhotosError))
    ensures !TooManyPhotos(req) ==> r == reply
  {
    if TooManyPhotos(req) then Failure(Thrown(TooManyPhotosError)) else reply
  }

  /** `uploadMedia`: fills the multipart buffer and "sends" it. `sent` is the
      body that reaches the network, `None` when nothing is sent. */
  method UploadMedia(req: UploadRequest, reply: Result<UploadResult>)
    returns (sent: Option<seq<FormField>>, r: Result<UploadResult>)
    ensures sent.None? <==> TooManyPhotos(req)
    ensures sent.Some? ==> sent.value == ExpectedFields(req)
    ensures r == UploadOutcome(req, reply)
  {
    var formData: seq<FormField> := [];
    if req.photos.Some? && |req.photos.value| > 0 {
      var photos := req.photos.value;
      if |photos| > MaxPhotos {
        return None, Failure(Thrown(TooManyPhotosError));
      }
      var i := 0;
      while i < |photos|
        invariant 0 <= i <= |photos|
        invariant |formData| == i
        invariant forall j :: 0 <= j < i ==> formData[j] == FormField("photos", photos[j])
      {
        formData := formData + [FormField("photos", photos[i])];
        i := i + 1;
      }
      assert formData == PhotoFields(photos);
    }
    if req.audio.Some? {
      formData := formData + [FormField("audio", req.audio.value)];
    }
    if req.video.Some? {
      formData := formData + [FormField("video", req.video.value)];
    }
    sent, r := Some(formData), reply;
  }

  /** Position of a field name in the body's fixed order. */
  function Rank(name: string): nat
  {
    if name == "photos" then 0 else if name == "audio" then 1 else 2
  }

  /** The files appended under `name`, in order. */
  function FilesNamed(fs: seq<FormField>, name: string): (r: seq<File>)
    ensures |r| <= |fs|
  {
    if fs == [] then []
    else (if fs[0].name == name then [fs[0].file] else []) + FilesNamed(fs[1..], name)
  }

  lemma {:induction false} FilesNamedAppend(a: seq<FormField>, b: seq<FormField>, name: string)
    ensures FilesNamed(a + b, name) == FilesNamed(a, name) + FilesNamed(b, name)
  {
    if a == [] {
      assert a + b == b;
    } else {
      var ab := a + b;
      var head: seq<File> := if a[0].name == name then [a[0].file] else [];
      assert ab[0] == a[0];
      assert ab[1..] == a[1..] + b;
      FilesNamedAppend(a[1..], b, name);
      assert FilesNamed(ab, name) == head + (FilesNamed(a[1..], name) + FilesNamed(b, name));
      assert FilesNamed(a, name) == head + FilesNamed(a[1..], name);
    }
  }

  lemma {:induction false} FilesNamedPhotos(ps: seq<File>, name: string)
    ensures FilesNamed(PhotoFields(ps), name) == if name == "photos" then ps else []
  {
    if ps != [] {
      var fs := PhotoFields(ps);
      assert fs == [FormField("photos", ps[0])] + PhotoFields(ps[1..]);
      assert fs[0] == FormField("photos", ps[0]) && fs[1..] == PhotoFields(ps[1..]);
      FilesNamedPhotos(ps[1..], name);
      assert ps == [ps[0]] + ps[1..];
    }
  }

  /** The request the server can read back from a body: the "photos" entries
      (absent when there are none), and the single "audio" and "video" entry. */
  function DecodeFields(fs: seq<FormField>): UploadRequest
  {
    var ps := FilesNamed(fs, "photos");
    var a := FilesNamed(fs, "audio");
    var v := FilesNamed(fs, "video");
    UploadRequest(if ps == [] then None else Some(ps),
                  if a == [] then None else Some(a[0]),
                  if v == [] then None else Some(v[0]))
  }

  /** A `null` photo list and an empty one are the same request on the wire. */
  function Normalize(req: UploadRequest): UploadRequest
  {
    if req.photos == Some([]) then req.(photos := None) else req
  }

  /** Round trip: the body carries exactly the photos in order and the audio
      and video that were asked for; an empty photo list leaves no "photos"
      entry at all. */
  lemma BodyRoundTrip(req: UploadRequest)
    ensures DecodeFields(ExpectedFields(req)) == Normalize(req)
  {
    PhotosDecoded(req);
    AudioDecoded(req);
    VideoDecoded(req);
  }

  lemma PhotosDecoded(req: UploadRequest)
    ensures FilesNamed(ExpectedFields(req), "photos") == if req.photos.Some? then req.photos.value else []
  {
    FilesNamedWhole(PhotoPart(req), OptionalField("audio", req.audio), OptionalField("video", req.video), "photos");
    if req.photos.Some? {
      FilesNamedPhotos(req.photos.value, "photos");
    }
    FilesNamedOptional("audio", req.audio, "photos");
    FilesNamedOptional("video", req.video, "photos");
  }

  lemma AudioDecoded(req: UploadRequest)
    ensures FilesNamed(ExpectedFields(req), "audio") == if req.audio.Some? then [req.audio.value] else []
  {
    FilesNamedWhole(PhotoPart(req), OptionalField("audio", req.audio), OptionalField("video", req.video), "audio");
    if req.photos.Some? {
      FilesNamedPhotos(req.photos.value, "audio");
    }
    FilesNamedOptional("audio", req.audio, "audio");
    FilesNamedOptional("video", req.video, "audio");
  }

  lemma VideoDecoded(req: UploadRequest)
    ensures FilesNamed(ExpectedFields(req), "video") == if req.video.Some? then [req.video.value] else []
  {
    FilesNamedWhole(PhotoPart(req), OptionalField("audio", req.audio), OptionalField("video", req.video), "video");
    if req.photos.Some? {
      FilesNamedPhotos(req.photos.value, "video");
    }
    FilesNamedOptional("audio", req.audio, "video");
    FilesNamedOptional("video", req.video, "video");
  }

  function OptionalField(name: string, f: Option<File>): seq<FormField>
  {
    if f.Some? then [FormField(name, f.value)] else []
  }

  lemma FilesNamedOptional(n: string, f: Option<File>, name: string)
    ensures FilesNamed(OptionalField(n, f), name) == if f.Some? && n == name then [f.value] else []
  {
    if f.Some? {
      assert OptionalField(n, f)[1..] == [];
    }
  }

  lemma FilesNamedWhole(p: seq<FormField>, a: seq<FormField>, v: seq<FormField>, name: string)
    ensures FilesNamed(p + a + v, name) == FilesNamed(p, name) + FilesNamed(a, name) + FilesNamed(v, name)
  {
    FilesNamedAppend(p + a, v, name);
    FilesNamedAppend(p, a, name);
  }

  /** Photos come first, then the audio, then the video. */
  lemma {:induction false} FieldOrder(req: UploadRequest)
    ensures forall i, j :: 0 <= i < j < |ExpectedFields(req)| ==>
      Rank(ExpectedFields(req)[i].name) <= Rank(ExpectedFields(req)[j].name)
  {
    var p := PhotoPart(req);
    var a := OptionalField("audio", req.audio);
    var v := OptionalField("video", req.video);
    var fs := p + a + v;
    assert ExpectedFields(req) == fs;
    assert forall k :: 0 <= k < |p| ==> Rank(fs[k].name) == 0;
    assert forall k :: |p| <= k < |p| + |a| ==> Rank(fs[k].name) == 1;
    assert forall k :: |p| + |a| <= k < |fs| ==> Rank(fs[k].name) == 2;
  }

  /** Exactly ten photos are accepted and sent, eleven are not. */
  lemma TenPhotosAccepted(ps: seq<File>, reply: Result<UploadResult>)
    requires |ps| == 10
    ensures UploadOutcome(UploadRequest(Some(ps), None, None), reply) == reply
    ensures forall x: File :: UploadOutcome(UploadRequest(Some(ps + [x]), None, None), reply)
                              == Failure(Thrown(TooManyPhotosError))
  {
  }
}

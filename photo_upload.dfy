/**
 * The image-acquisition widget of frontend/src/components/PhotoUpload.tsx:
 * drag state, the MIME check, the camera session and which of the three
 * views is shown. Browser work that completes asynchronously (the preview
 * decode, `getUserMedia`, `canvas.toBlob`) is an event whose outcome is a
 * parameter; `onImageSelect(file)` is returned as the file forwarded to it.
 */
module PhotoUpload {
  import opened Types

  /** A device track; `stop()` ends it for good. */
  class MediaTrack {
    var live: bool

    constructor ()
      ensures live
    {
      live := true;
    }

    method Stop()
      modifies this
      ensures !live
    {
      live := false;
    }
  }

  /** A camera stream and the device tracks it owns. */
  class MediaStream {
    const tracks: seq<MediaTrack>

    constructor (tracks: seq<MediaTrack>)
      ensures this.tracks == tracks
    {
      this.tracks := tracks;
    }

    ghost function TrackSet(): (ts: set<MediaTrack>) {
      set t | t in tracks
    }
  }

  const ImageTypePrefix := "image/"
  const CameraFileName := "camera-photo.jpg"
  const CameraFileType := "image/jpeg"

  /** `file.type.startsWith('image/')` */
  function IsImageType(mimeType: string): (ok: bool)
    ensures ok <==> |mimeType| >= 6 && mimeType[..6] == "image/"
  {
    ImageTypePrefix <= mimeType
  }

  /** `new File([blob], 'camera-photo.jpg', { type: 'image/jpeg' })` */
  function CameraFile(blob: seq<bv8>): (file: File)
    ensures file.name == CameraFileName && file.contents == blob
    ensures IsImageType(file.mimeType)
  {
    File(CameraFileName, CameraFileType, blob)
  }

  /** The three mutually exclusive bodies of the widget. */
  datatype UploadView =
    | CameraView
    | PreviewView(image: string)
    | DropZoneView(dragActive: bool, isLoading: bool)

  /** `showCamera ? camera : selectedImage ? preview : drop zone` */
  function ShownView(showCamera: bool, selectedImage: Option<string>, dragActive: bool, isLoading: bool): (v: UploadView)
    ensures v.CameraView? <==> showCamera
    ensures v.PreviewView? <==> !showCamera && selectedImage.Some? && selectedImage.value != ""
    ensures v.PreviewView? ==> v.image == selectedImage.value
    ensures v.DropZoneView? ==> v.dragActive == dragActive && v.isLoading == isLoading
  {
    if showCamera then CameraView
    else if selectedImage.Some? && selectedImage.value != "" then PreviewView(selectedImage.value)
    else DropZoneView(dragActive, isLoading)
  }

  class PhotoUpload {
    var dragActive: bool
    var selectedImage: Option<string>
    var showCamera: bool
    var stream: MediaStream?
    /** Every track a granted camera request has handed to the widget. */
    ghost var acquired: set<MediaTrack>
    /** Preview decodes started by `handleFile` whose load event has not fired yet. */
    ghost var pendingReads: nat

    /** The camera view is shown exactly while a stream is held. */
    ghost predicate Valid()
      reads this
    {
      showCamera <==> stream != null
    }

    /** No leaked device: every acquired track still live belongs to the held stream. */
    ghost predicate NoLeak()
      reads this, acquired
    {
      forall t | t in acquired && t.live :: stream != null && t in stream.tracks
    }

    ghost function HeldTracks(): (ts: set<MediaTrack>)
      reads this
    {
      if stream == null then {} else stream.TrackSet()
    }

    constructor ()
      ensures Valid() && NoLeak()
      ensures !dragActive && selectedImage == None && !showCamera && stream == null
      ensures pendingReads == 0
    {
      dragActive := false;
      selectedImage := None;
      showCamera := false;
      stream := null;
      acquired := {};
      pendingReads := 0;
    }

    /** The body the widget renders; the camera view is up exactly while a stream is held. */
    function View(isLoading: bool): (v: UploadView)
      requires Valid()
      reads this
      ensures v.CameraView? <==> stream != null
      ensures v == ShownView(showCamera, selectedImage, dragActive, isLoading)
    {
      ShownView(showCamera, selectedImage, dragActive, isLoading)
    }

    /**
     * `handleFile`: an image is forwarded to `onImageSelect` once and its
     * preview decode starts; any other type is refused with an alert and
     * forwarded nowhere.
     */
    method HandleFile(file: File) returns (forwarded: Option<File>)
      modifies this`pendingReads
      ensures forwarded.Some? <==> IsImageType(file.mimeType)
      ensures forwarded.Some? ==> forwarded.value == file
      ensures pendingReads == old(pendingReads) + if forwarded.Some? then 1 else 0
    {
      if ImageTypePrefix <= file.mimeType {
        forwarded := Some(file);
        pendingReads := pendingReads + 1;
      } else {
        forwarded := None;
      }
    }

    /**
     * The load event of a `FileReader` that `handleFile` started: the decoded
     * data URL becomes the preview.
     */
    method PreviewLoaded(dataUrl: string)
      requires Valid() && pendingReads > 0
      modifies this
      ensures Valid()
      ensures selectedImage == Some(dataUrl)
      ensures dragActive == old(dragActive) && showCamera == old(showCamera) && stream == old(stream)
      ensures acquired == old(acquired) && pendingReads == old(pendingReads) - 1
    {
      selectedImage := Some(dataUrl);
      pendingReads := pendingReads - 1;
    }

    /** `handleDrag`: enter and over raise the highlight, leave lowers it, anything else keeps it. */
    method HandleDrag(eventType: string)
      modifies this`dragActive
      ensures eventType == "dragenter" || eventType == "dragover" ==> dragActive
      ensures eventType == "dragleave" ==> !dragActive
      ensures eventType !in {"dragenter", "dragover", "dragleave"} ==> dragActive == old(dragActive)
    {
      if eventType == "dragenter" || eventType == "dragover" {
        dragActive := true;
      } else if eventType == "dragleave" {
        dragActive := false;
      }
    }

    /** `handleDrop`: the highlight goes off and only the first dropped file goes to `handleFile`. */
    method HandleDrop(files: seq<File>) returns (forwarded: Option<File>)
      modifies this`dragActive, this`pendingReads
      ensures !dragActive
      ensures pendingReads == old(pendingReads) + if forwarded.Some? then 1 else 0
      ensures |files| == 0 ==> forwarded == None
      ensures |files| > 0 ==> (forwarded.Some? <==> IsImageType(files[0].mimeType))
      ensures forwarded.Some? ==> forwarded.value == files[0]
    {
      dragActive := false;
      forwarded := None;
      if |files| > 0 {
        forwarded := HandleFile(files[0]);
      }
    }

    /** `handleChange`: the first chosen file goes to `handleFile`. */
    method HandleChange(files: seq<File>) returns (forwarded: Option<File>)
      modifies this`pendingReads
      ensures pendingReads == old(pendingReads) + if forwarded.Some? then 1 else 0
      ensures |files| == 0 ==> forwarded == None
      ensures |files| > 0 ==> (forwarded.Some? <==> IsImageType(files[0].mimeType))
      ensures forwarded.Some? ==> forwarded.value == files[0]
    {
      forwarded := None;
      if |files| > 0 {
        forwarded := HandleFile(files[0]);
      }
    }

    /**
     * `startCamera` once `getUserMedia` settles: a granted stream is held and
     * shown; a refusal leaves everything as it was. As written, a stream that
     * was already held is dropped without stopping its tracks.
     */
    method StartCamera(granted: Option<MediaStream>)
      requires Valid()
      modifies this
      ensures Valid()
      ensures granted.Some? ==> stream == granted.value && showCamera
      ensures granted.None? ==> stream == old(stream) && showCamera == old(showCamera)
      ensures dragActive == old(dragActive) && selectedImage == old(selectedImage)
      ensures acquired == old(acquired) + (if granted.Some? then granted.value.TrackSet() else {})
      ensures pendingReads == old(pendingReads)
    {
      if granted.Some? {
        stream := granted.value;
        showCamera := true;
        acquired := acquired + granted.value.TrackSet();
      }
    }

    /**
     * `stopCamera`: every track of the held stream is stopped, then the
     * stream is dropped and the camera view closed. With no stream it only
     * closes the view, so it is idempotent.
     */
    method StopCamera()
      requires Valid()
      modifies this, HeldTracks()
      ensures Valid() && stream == null && !showCamera
      ensures old(stream) != null ==> forall t | t in old(stream).tracks :: !t.live
      ensures dragActive == old(dragActive) && selectedImage == old(selectedImage)
      ensures acquired == old(acquired) && pendingReads == old(pendingReads)
      ensures old(NoLeak()) ==> NoLeak() && forall t | t in acquired :: !t.live
    {
      if stream != null {
        var tracks := stream.tracks;
        for i := 0 to |tracks|
          invariant forall k | 0 <= k < i :: !tracks[k].live
          invariant forall t | t in acquired && t !in tracks :: t.live == old(t.live)
          modifies set t | t in tracks
        {
          tracks[i].Stop();
        }
        stream := null;
      }
      showCamera := false;
    }

    /**
     * `capturePhoto` once `toBlob` settles: with both element refs and a
     * blob, the frame is forwarded as 'camera-photo.jpg' of type
     * 'image/jpeg' (which always passes the MIME check) and the camera is
     * stopped; otherwise nothing happens.
     */
    method CapturePhoto(refsPresent: bool, blob: Option<seq<bv8>>) returns (forwarded: Option<File>)
      requires Valid()
      modifies this, HeldTracks()
      ensures Valid()
      ensures refsPresent && blob.Some? ==>
        && forwarded == Some(File(CameraFileName, CameraFileType, blob.value))
        && stream == null && !showCamera
        && (old(stream) != null ==> forall t | t in old(stream).tracks :: !t.live)
      ensures !(refsPresent && blob.Some?) ==>
        forwarded == None && stream == old(stream) && showCamera == old(showCamera)
      ensures !(refsPresent && blob.Some?) ==> unchanged(old(HeldTracks()))
      ensures dragActive == old(dragActive) && selectedImage == old(selectedImage)
      ensures acquired == old(acquired)
      ensures pendingReads == old(pendingReads) + if forwarded.Some? then 1 else 0
      ensures old(NoLeak()) ==> NoLeak()
    {
      forwarded := None;
      if refsPresent && blob.Some? {
        var file := CameraFile(blob.value);
        forwarded := HandleFile(file);
        StopCamera();
      }
    }

    /** The Remove button: the preview is cleared. */
    method RemoveImage()
      requires Valid()
      modifies this`selectedImage
      ensures Valid() && selectedImage == None
    {
      selectedImage := None;
    }

    /**
     * `startCamera` as evidently intended: a stream already held is stopped
     * before the new one replaces it, so no device track is ever leaked.
     */
    method StartCameraReleasingPrevious(granted: Option<MediaStream>)
      requires Valid() && NoLeak()
      modifies this, HeldTracks()
      ensures Valid() && NoLeak()
      ensures granted.Some? ==> stream == granted.value && showCamera
      ensures granted.None? ==> stream == old(stream) && showCamera == old(showCamera)
      ensures granted.None? ==> unchanged(old(HeldTracks()))
      ensures dragActive == old(dragActive) && selectedImage == old(selectedImage)
      ensures acquired == old(acquired) + (if granted.Some? then granted.value.TrackSet() else {})
      ensures pendingReads == old(pendingReads)
    {
      if granted.Some? {
        StopCamera();
        stream := granted.value;
        showCamera := true;
        acquired := acquired + granted.value.TrackSet();
      }
    }
  }

  /**
   * Clicking "Use Camera" a second time while the camera is shown (the
   * button stays enabled): with `StartCamera` as written, the first stream's
   * track is still live after the second grant, yet no longer held.
   */
  method SecondStartLeaksFirstStream()
  {
    var widget := new PhotoUpload();
    var first := new MediaTrack();
    var second := new MediaTrack();
    var firstStream := new MediaStream([first]);
    var secondStream := new MediaStream([second]);
    widget.StartCamera(Some(firstStream));
    assert widget.NoLeak();
    widget.StartCamera(Some(secondStream));
    assert first in widget.acquired && first.live && first !in widget.stream.tracks;
    assert !widget.NoLeak();
  }
}

/** The mini-program map page: the same cover fit, placed through a
    movable-view component whose reported positions the page corrects after
    the fact, plus the marker popup and its video player. */
module MiniProgram {
  import opened Cover
  import Decimal

  /** Image size used when the image information cannot be read. */
  const FALLBACK_WIDTH: real := 1200.0
  const FALLBACK_HEIGHT: real := 734.0

  /** Popup title used for a marker without a title. */
  const DEFAULT_TITLE: string := "标记点"

  datatype Option<T> = None | Some(value: T)

  /** A point of interest: position in image pixels and its popup content;
      an empty `videoUrl` means the marker has no video. */
  datatype Marker = Marker(id: string, x: int, y: int, kind: string, image: string,
                           title: string, description: string, videoUrl: string)

  /** What the image-information request delivers: the natural size, or failure. */
  datatype ImageInfo = Loaded(width: real, height: real) | LoadFailed

  /** A movable-view placement: position and scale. */
  datatype View = View(x: real, y: real, scale: real)

  /** The page's marker list. */
  const SAMPLE_MARKERS: seq<Marker> := [
    Marker("pic-1", 200, 400, "image", "../../image/1.jpeg", "位置一",
           "这是第一个标记点的详细描述信息，可以包含更多内容。",
           "https://cos-power-app-offline-1251840830.cos.ap-beijing.myqcloud.com/temp/source/1.mp4"),
    Marker("pic-2", 500, 300, "image", "../../image/2.jpeg", "位置二",
           "第二个标记点的描述，这里可以写一些相关的说明文字。",
           "https://cos-power-app-offline-1251840830.cos.ap-beijing.myqcloud.com/temp/source/2.mp4"),
    Marker("pic-3", 350, 600, "image", "../../image/3.jpeg", "位置三",
           "第三个标记点的详细信息，描述内容可以根据需要调整。",
           "https://cos-power-app-offline-1251840830.cos.ap-beijing.myqcloud.com/temp/source/3.mp4")
  ]

  /** `markers.find(m => m.id === id)`: the first marker with that id. */
  function FindMarker(markers: seq<Marker>, id: string): (r: Option<Marker>)
    ensures r.None? <==> forall i :: 0 <= i < |markers| ==> markers[i].id != id
    ensures r.Some? ==> exists i :: 0 <= i < |markers| && markers[i] == r.value && r.value.id == id
                                    && forall j :: 0 <= j < i ==> markers[j].id != id
  {
    if |markers| == 0 then None
    else if markers[0].id == id then Some(markers[0])
    else
      var r := FindMarker(markers[1..], id);
      assert r.Some? ==> exists i :: 0 < i < |markers| && markers[i] == r.value && r.value.id == id
                                     && forall j :: 0 <= j < i ==> markers[j].id != id by {
        if r.Some? {
          var k :| 0 <= k < |markers[1..]| && markers[1..][k] == r.value && r.value.id == id
                   && forall j :: 0 <= j < k ==> markers[1..][j].id != id;
          assert markers[k + 1] == r.value;
          assert forall j :: 0 <= j < k + 1 ==> markers[j].id != id by {
            forall j | 0 <= j < k + 1 ensures markers[j].id != id {
              if j > 0 { assert markers[j] == markers[1..][j - 1]; }
            }
          }
        }
      }
      assert r.None? ==> forall i :: 0 <= i < |markers| ==> markers[i].id != id by {
        if r.None? {
          forall i | 0 <= i < |markers| ensures markers[i].id != id {
            if i > 0 { assert markers[i] == markers[1..][i - 1]; }
          }
        }
      }
      r
  }

  /** `s || fallback` on strings: the empty string is falsy. */
  function OrElse(s: string, fallback: string): string {
    if s == "" then fallback else s
  }

  /** The default description: the marker's coordinates. */
  function CoordinatesText(x: int, y: int): string {
    "坐标: (" + Decimal.IntToString(x) + ", " + Decimal.IntToString(y) + ")"
  }

  /** The position correction of one axis: an undersized axis is forced to
      its centred value, any other axis is limited to [v - scaled, 0]. */
  function ViewClamp(t: real, v: real, scaled: real): (r: real)
    ensures scaled < v ==> r == Centred(v, scaled)
    ensures v <= scaled ==> v - scaled <= r <= 0.0
    ensures v <= scaled && v - scaled <= t <= 0.0 ==> r == t
    ensures v <= scaled && t < v - scaled ==> r == v - scaled
    ensures v <= scaled && 0.0 < t ==> r == 0.0
  {
    var lo := if scaled < v then Centred(v, scaled) else v - scaled;
    var hi := if scaled < v then lo else 0.0;
    Max(lo, Min(hi, t))
  }

  /** The cover-fit placement of an `iw` x `ih` image in a `vw` x `vh` viewport. */
  function InitialView(vw: real, vh: real, iw: real, ih: real): (r: View)
    requires iw != 0.0 && ih != 0.0
    ensures r.scale == CoverScale(vw, vh, iw, ih)
    ensures r.x == Centred(vw, Scaled(iw, r.scale)) && r.y == Centred(vh, Scaled(ih, r.scale))
    ensures iw > 0.0 && ih > 0.0 ==>
              && vw <= Scaled(iw, r.scale) && vh <= Scaled(ih, r.scale)
              && ViewClamp(r.x, vw, Scaled(iw, r.scale)) == r.x
              && ViewClamp(r.y, vh, Scaled(ih, r.scale)) == r.y
  {
    var s := CoverScale(vw, vh, iw, ih);
    View(Centred(vw, Scaled(iw, s)), Centred(vh, Scaled(ih, s)), s)
  }

  /** The movable-view component: the position and scale the page sets on it. */
  class MovableView {
    var x: real
    var y: real
    var scale: real

    constructor (x0: real, y0: real, scale0: real)
      ensures x == x0 && y == y0 && scale == scale0
    {
      x, y, scale := x0, y0, scale0;
    }
  }

  /** The page: its `data` and the fields `_currentX`, `_currentY`,
      `_currentScale` and `_initialScale`. */
  class IndexPage {
    var viewportWidth: real
    var viewportHeight: real
    var imageWidth: real
    var imageHeight: real
    /** `data.initialScale` and `_initialScale`, which are always set together;
        None until the image size is known. */
    var initialScale: Option<real>
    var markers: seq<Marker>
    var showPopup: bool
    var popupTitle: string
    var popupImage: string
    var popupDescription: string
    var popupVideoUrl: string
    var showVideoPlayer: bool
    var currentVideoUrl: string
    var currentX: real
    var currentY: real
    var currentScale: real

    /** An open popup has a title, and an open player has a video to play. */
    ghost predicate Valid()
      reads this
    {
      && (showPopup ==> popupTitle != "")
      && (showVideoPlayer ==> currentVideoUrl != "")
    }

    /** The initial `data` followed by `onLoad` up to the image request: the
        viewport takes the window size and the current view is (0, 0, 1). */
    constructor (windowWidth: real, windowHeight: real)
      ensures Valid()
      ensures viewportWidth == windowWidth && viewportHeight == windowHeight
      ensures imageWidth == 0.0 && imageHeight == 0.0 && initialScale == None
      ensures markers == SAMPLE_MARKERS
      ensures !showPopup && popupTitle == "" && popupImage == "" && popupDescription == "" && popupVideoUrl == ""
      ensures !showVideoPlayer && currentVideoUrl == ""
      ensures currentX == 0.0 && currentY == 0.0 && currentScale == 1.0
    {
      viewportWidth, viewportHeight := windowWidth, windowHeight;
      imageWidth, imageHeight := 0.0, 0.0;
      initialScale := None;
      markers := SAMPLE_MARKERS;
      showPopup, popupTitle, popupImage, popupDescription, popupVideoUrl := false, "", "", "", "";
      showVideoPlayer, currentVideoUrl := false, "";
      currentX, currentY, currentScale := 0.0, 0.0, 1.0;
    }

    /** Records the image size (the fallback size when the request fails),
        computes the cover scale and places the view. `mapView` is the
        component lookup's result, null when the component is missing. */
    method LoadMapImage(info: ImageInfo, mapView: MovableView?)
      requires info.Loaded? ==> info.width > 0.0 && info.height > 0.0
      modifies this`imageWidth, this`imageHeight, this`initialScale
      modifies this`currentX, this`currentY, this`currentScale, mapView
      ensures imageWidth == (if info.Loaded? then info.width else FALLBACK_WIDTH)
      ensures imageHeight == (if info.Loaded? then info.height else FALLBACK_HEIGHT)
      ensures imageWidth > 0.0 && imageHeight > 0.0
      ensures initialScale == Some(InitialView(viewportWidth, viewportHeight, imageWidth, imageHeight).scale)
      ensures mapView != null ==>
                && View(currentX, currentY, currentScale) == InitialView(viewportWidth, viewportHeight, imageWidth, imageHeight)
                && View(mapView.x, mapView.y, mapView.scale) == View(currentX, currentY, currentScale)
      ensures mapView == null ==> currentX == old(currentX) && currentY == old(currentY) && currentScale == old(currentScale)
    {
      var width, height;
      if info.Loaded? {
        width, height := info.width, info.height;
      } else {
        width, height := FALLBACK_WIDTH, FALLBACK_HEIGHT;
      }
      var scaleX := viewportWidth / width;
      var scaleY := viewportHeight / height;
      var s := Max(scaleX, scaleY);
      initialScale := Some(s);
      imageWidth, imageHeight := width, height;
      InitMapView(s, mapView);
    }

    /** Places the view centred at `scale`; the page's current view follows
        only when the component exists. */
    method InitMapView(scale: real, mapView: MovableView?)
      modifies this`currentX, this`currentY, this`currentScale, mapView
      ensures mapView != null ==>
                && currentX == Centred(viewportWidth, Scaled(imageWidth, scale))
                && currentY == Centred(viewportHeight, Scaled(imageHeight, scale))
                && currentScale == scale
                && mapView.x == currentX && mapView.y == currentY && mapView.scale == scale
      ensures mapView == null ==> currentX == old(currentX) && currentY == old(currentY) && currentScale == old(currentScale)
    {
      if mapView != null {
        var scaledWidth := Scaled(imageWidth, scale);
        var scaledHeight := Scaled(imageHeight, scale);
        var x := Centred(viewportWidth, scaledWidth);
        var y := Centred(viewportHeight, scaledHeight);
        if scaledWidth < viewportWidth {
          x := Centred(viewportWidth, scaledWidth);
        }
        if scaledHeight < viewportHeight {
          y := Centred(viewportHeight, scaledHeight);
        }
        mapView.x, mapView.y, mapView.scale := x, y, scale;
        currentX, currentY, currentScale := x, y, scale;
      }
    }

    /** The component reports a new position (and perhaps a new scale): the
        page corrects it per axis, pushes a corrected position back when it
        differs, and records the corrected view. */
    method OnViewChange(detailX: real, detailY: real, detailScale: Option<real>, mapView: MovableView?)
      modifies this`currentX, this`currentY, this`currentScale, mapView
      ensures currentScale == (if detailScale.Some? then detailScale.value else old(currentScale))
      ensures currentX == ViewClamp(detailX, viewportWidth, Scaled(imageWidth, currentScale))
      ensures currentY == ViewClamp(detailY, viewportHeight, Scaled(imageHeight, currentScale))
      ensures mapView != null ==>
                && mapView.scale == old(mapView.scale)
                && if currentX != detailX || currentY != detailY
                   then mapView.x == currentX && mapView.y == currentY
                   else mapView.x == old(mapView.x) && mapView.y == old(mapView.y)
    {
      var scale := if detailScale.Some? then detailScale.value else currentScale;
      var scaledWidth := Scaled(imageWidth, scale);
      var scaledHeight := Scaled(imageHeight, scale);
      var minX := viewportWidth - scaledWidth;
      var maxX := 0.0;
      var minY := viewportHeight - scaledHeight;
      var maxY := 0.0;
      if scaledWidth < viewportWidth {
        minX := Centred(viewportWidth, scaledWidth);
        maxX := minX;
      }
      if scaledHeight < viewportHeight {
        minY := Centred(viewportHeight, scaledHeight);
        maxY := minY;
      }
      var clampedX := Max(minX, Min(maxX, detailX));
      var clampedY := Max(minY, Min(maxY, detailY));
      if clampedX != detailX || clampedY != detailY {
        if mapView != null {
          mapView.x, mapView.y := clampedX, clampedY;
        }
      }
      currentX := if clampedX != detailX then clampedX else detailX;
      currentY := if clampedY != detailY then clampedY else detailY;
      currentScale := scale;
    }

    /** Opens the popup of the marker with id `markerId`, filling in a
        default title and description; an unknown id changes nothing. */
    method OnMarkerTap(markerId: string)
      requires Valid()
      modifies this`showPopup, this`popupTitle, this`popupImage, this`popupDescription, this`popupVideoUrl
      ensures Valid()
      ensures match FindMarker(markers, markerId)
        case None =>
          && showPopup == old(showPopup) && popupTitle == old(popupTitle) && popupImage == old(popupImage)
          && popupDescription == old(popupDescription) && popupVideoUrl == old(popupVideoUrl)
        case Some(m) =>
          && showPopup
          && popupTitle == OrElse(m.title, DEFAULT_TITLE)
          && popupImage == m.image
          && popupDescription == OrElse(m.description, CoordinatesText(m.x, m.y))
          && popupVideoUrl == m.videoUrl
    {
      var marker := FindMarker(markers, markerId);
      if marker.Some? {
        var m := marker.value;
        showPopup := true;
        popupTitle := OrElse(m.title, DEFAULT_TITLE);
        popupImage := m.image;
        popupDescription := OrElse(m.description, CoordinatesText(m.x, m.y));
        popupVideoUrl := OrElse(m.videoUrl, "");
      }
    }

    /** Opens the player on the popup's video; without a video it changes
        nothing (the page only shows a notice). */
    method WatchVideo()
      requires Valid()
      modifies this`showVideoPlayer, this`currentVideoUrl
      ensures Valid()
      ensures popupVideoUrl == "" ==> showVideoPlayer == old(showVideoPlayer) && currentVideoUrl == old(currentVideoUrl)
      ensures popupVideoUrl != "" ==> showVideoPlayer && currentVideoUrl == popupVideoUrl
    {
      var videoUrl := popupVideoUrl;
      if videoUrl == "" {
        return;
      }
      showVideoPlayer := true;
      currentVideoUrl := videoUrl;
    }

    /** Closes the popup together with its player. */
    method ClosePopup()
      requires Valid()
      modifies this`showPopup, this`showVideoPlayer
      ensures Valid()
      ensures !showPopup && !showVideoPlayer
    {
      showPopup := false;
      showVideoPlayer := false;
    }

    /** Closes the player only; the popup stays as it is. */
    method CloseVideoPlayer()
      requires Valid()
      modifies this`showVideoPlayer
      ensures Valid()
      ensures !showVideoPlayer
    {
      showVideoPlayer := false;
    }

    /** Returns to the cover-fit placement; does nothing while the image size
        is unknown. The page's current view is updated even without the
        component. */
    method ResetView(mapView: MovableView?)
      modifies this`currentX, this`currentY, this`currentScale, mapView
      ensures imageWidth == 0.0 || imageHeight == 0.0 ==>
                && currentX == old(currentX) && currentY == old(currentY) && currentScale == old(currentScale)
                && (mapView != null ==> mapView.x == old(mapView.x) && mapView.y == old(mapView.y) && mapView.scale == old(mapView.scale))
      ensures imageWidth != 0.0 && imageHeight != 0.0 ==>
                && View(currentX, currentY, currentScale) == InitialView(viewportWidth, viewportHeight, imageWidth, imageHeight)
                && (mapView != null ==> View(mapView.x, mapView.y, mapView.scale) == View(currentX, currentY, currentScale))
    {
      if imageWidth != 0.0 && imageHeight != 0.0 {
        var scaleX := viewportWidth / imageWidth;
        var scaleY := viewportHeight / imageHeight;
        var s := Max(scaleX, scaleY);
        var scaledWidth := Scaled(imageWidth, s);
        var scaledHeight := Scaled(imageHeight, s);
        var x := Centred(viewportWidth, scaledWidth);
        var y := Centred(viewportHeight, scaledHeight);
        if scaledWidth < viewportWidth {
          x := Centred(viewportWidth, scaledWidth);
        }
        if scaledHeight < viewportHeight {
          y := Centred(viewportHeight, scaledHeight);
        }
        if mapView != null {
          mapView.x, mapView.y, mapView.scale := x, y, s;
        }
        currentX, currentY, currentScale := x, y, s;
      }
    }
  }

  /** Loading the image and then, after the component reports any position
      and scale, resetting the view gives back exactly the view the load
      produced; a second reset changes nothing. */
  method ResetRestoresInitialView(windowWidth: real, windowHeight: real, info: ImageInfo,
                                  detailX: real, detailY: real, detailScale: Option<real>)
    returns (loaded: View, reset: View, resetAgain: View)
    requires info.Loaded? ==> info.width > 0.0 && info.height > 0.0
    ensures loaded == reset == resetAgain
  {
    var page := new IndexPage(windowWidth, windowHeight);
    var mapView := new MovableView(0.0, 0.0, 1.0);
    page.LoadMapImage(info, mapView);
    loaded := View(page.currentX, page.currentY, page.currentScale);
    page.OnViewChange(detailX, detailY, detailScale, mapView);
    page.ResetView(mapView);
    reset := View(page.currentX, page.currentY, page.currentScale);
    page.ResetView(mapView);
    resetAgain := View(page.currentX, page.currentY, page.currentScale);
  }
}

/**
 * The main Mars page (`MarsMapPage`): three drawing modes (label, question,
 * measure) started by toggle buttons, a leaflet-draw handler and its
 * `CREATED` listeners, the shape waiting for confirmation, the label and
 * question modals, the distance readout, the coordinate search and the
 * label and question layers.
 *
 * Leaflet is abstract: a draw handler is the mode it was started for, a
 * completed shape is its kind and vertex list, and a layer group is the
 * sequence of overlays it holds. The network is an outcome parameter, the
 * question id generator is a parameter, and timers are event methods.
 */
module MarsPage {
  import opened Wrappers
  import opened JsText
  import opened Geo
  import opened Labels
  import opened Search
  import opened Distance

  /** The three drawing modes, one per toolbar button. */
  datatype DrawMode = LabelMode | QuestionMode | MeasureMode

  /** What a leaflet-draw handler produces: `Draw.Polygon` or `Draw.Polyline`. */
  datatype ShapeKind = PolygonShape | PolylineShape

  /** A completed drawing: for a polygon its outer ring, for a polyline its points. */
  datatype Shape = Shape(kind: ShapeKind, vertices: seq<LatLng>)

  /** The status banner's messages; the last five are errors. */
  datatype Status =
    | LabelAdded | QuestionPosted | Navigating | Arrived | SearchCleared | ForumShown | ForumHidden
    | LoadFailed | TitleRequired | SaveFailed | NetworkError | QuestionRequired | InvalidCoordinates

  predicate IsError(s: Status)
  {
    s.LoadFailed? || s.TitleRequired? || s.SaveFailed? || s.NetworkError? || s.QuestionRequired? || s.InvalidCoordinates?
  }

  /** A locally posted question; `answers` starts empty and the timestamp is not modelled. */
  datatype Question = Question(id: string, question: string, color: string, coordinates: seq<Coord>)

  /** A question's polygon in the question layer, and whether it is currently styled visible. */
  datatype QuestionArea = QuestionArea(id: string, ring: seq<LatLng>, color: string, shown: bool)

  /** The body posted to the label service. */
  datatype LabelPayload = LabelPayload(userId: int, celestialObject: string, title: string, description: string, coordinates: seq<real>)

  /** What became of the POST of a label: `res.ok`, a non-ok response, or a thrown `fetch`. */
  datatype SaveOutcome = Saved | Refused | NetworkFailure

  /** What `loadLabels` read: a JSON body with or without a `labels` list, or a failure. */
  datatype LoadOutcome = Received(labels: Option<seq<Label>>) | Unreadable

  /** The zoom level `flyTo` targets after a search. */
  const SearchZoom := 7

  /** The kind of shape the handler of a mode draws. */
  function KindOf(m: DrawMode): ShapeKind
  {
    if m == MeasureMode then PolylineShape else PolygonShape
  }

  /**
   * The measure listener's `calculateDistance(line.getLatLngs())`: for a
   * polygon `getLatLngs()` is the list of its rings, one element long, so
   * the sum is empty.
   */
  function MeasuredDistance(s: Shape, segment: (LatLng, LatLng) -> real): (r: real)
    ensures s.kind == PolylineShape ==> r == PathLength(s.vertices, segment)
    ensures s.kind == PolygonShape ==> r == 0.0
    ensures (forall a, b :: segment(a, b) >= 0.0) ==> r >= 0.0
  {
    if s.kind == PolylineShape then PathLength(s.vertices, segment) else 0.0
  }

  /** A question area restyled by the Q&A visibility toggle. */
  function Styled(a: QuestionArea, visible: bool): QuestionArea
  {
    a.(shown := visible)
  }

  /** The modal inputs and colour swatches. */
  datatype Form = Form(
    labelTitle: string,
    labelDescription: string,
    questionText: string,
    selectedLabelColor: string,
    selectedQuestionColor: string)

  /** The search box, whether a flight is under way, the point its timer will mark, and the markers placed. */
  datatype SearchBox = SearchBox(query: string, isNavigating: bool, pendingArrival: Option<LatLng>, markers: seq<LatLng>)

  /** The loaded labels and the contents of the label and question layers. */
  datatype Layers = Layers(
    labels: seq<Label>,
    labelLayer: seq<Overlay>,
    questions: map<string, Question>,
    questionCount: nat,
    questionLayer: seq<QuestionArea>,
    forumLayersVisible: bool)

  const InitialForm := Form("", "", "", LoadedLabelColor, LoadedLabelColor)
  const InitialSearch := SearchBox("", false, None, [])
  const InitialLayers := Layers([], [], map[], 0, [], true)

  /**
   * The request `submitLabel` posts: none for a blank title, a missing shape
   * or a shape without a ring (a polyline, whose `getLatLngs()[0]` is a point);
   * otherwise the ring flattened, which loads back as the same ring.
   */
  function LabelRequest(userId: int, f: Form, shape: Option<Shape>): (r: Option<LabelPayload>)
    ensures r.Some? <==> !IsBlank(f.labelTitle) && shape.Some? && shape.value.kind == PolygonShape
    ensures r.Some? ==> r.value.userId == userId && r.value.celestialObject == "Mars"
    ensures r.Some? ==> r.value.title == f.labelTitle && r.value.description == f.labelDescription
    ensures r.Some? ==> ToVertices(Paired(r.value.coordinates)) == Some(shape.value.vertices)
  {
    if !IsBlank(f.labelTitle) && shape.Some? && shape.value.kind == PolygonShape then
      PairFlattenRoundTrip(shape.value.vertices);
      Some(LabelPayload(userId, "Mars", f.labelTitle, f.labelDescription, Flatten(shape.value.vertices)))
    else None
  }

  /** A saved label's polygon and its title marker, in the selected colour. */
  function Tagged(ring: seq<LatLng>, f: Form): seq<Overlay>
  {
    [Area(ring, f.selectedLabelColor), Tag(f.labelTitle, f.selectedLabelColor)]
  }

  /** `submitQuestion` gets past its checks: non-blank text and a shape with a ring. */
  predicate Postable(text: string, shape: Option<Shape>)
  {
    !IsBlank(text) && shape.Some? && shape.value.kind == PolygonShape
  }

  /** The layers after a question is posted under `id` with the polygon `ring`. */
  function Posted(l: Layers, id: string, f: Form, ring: seq<LatLng>): (r: Layers)
    ensures id in r.questions && r.questions[id].question == f.questionText && r.questions[id].color == f.selectedQuestionColor
    ensures r.questions[id].coordinates == ToCoords(ring)
    ensures forall other :: other != id ==> (other in r.questions <==> other in l.questions)
    ensures forall other :: other != id && other in l.questions ==> r.questions[other] == l.questions[other]
    ensures r.questionCount == l.questionCount + 1
    ensures r.questionLayer == l.questionLayer + [QuestionArea(id, ring, f.selectedQuestionColor, true)]
    ensures r.labels == l.labels && r.labelLayer == l.labelLayer && r.forumLayersVisible == l.forumLayersVisible
  {
    l.(questions := l.questions[id := Question(id, f.questionText, f.selectedQuestionColor, ToCoords(ring))],
       questionCount := l.questionCount + 1,
       questionLayer := l.questionLayer + [QuestionArea(id, ring, f.selectedQuestionColor, true)])
  }

  /** The counter equals the number of stored questions as long as every generated id is fresh. */
  lemma PostedKeepsCount(l: Layers, id: string, f: Form, ring: seq<LatLng>)
    requires l.questionCount == |l.questions| && id !in l.questions
    ensures Posted(l, id, f, ring).questionCount == |Posted(l, id, f, ring).questions|
  {
    var r := Posted(l, id, f, ring);
    assert r.questions.Keys == l.questions.Keys + {id};
  }

  /** A reused id overwrites the stored question, yet the counter still goes up. */
  lemma PostedReusedId(l: Layers, id: string, f: Form, ring: seq<LatLng>)
    requires id in l.questions
    ensures |Posted(l, id, f, ring).questions| == |l.questions|
    ensures Posted(l, id, f, ring).questionCount == l.questionCount + 1
  {
    var r := Posted(l, id, f, ring);
    assert r.questions.Keys == l.questions.Keys;
  }

  class MarsMapPage {
    /** `USER_ID` of the page. */
    const userId: int
    /** The per-segment distance `calculateDistance` adds up (the haversine formula on Mars's radius). */
    const segment: (LatLng, LatLng) -> real

    var isDrawingLabel: bool
    var isDrawingQuestion: bool
    var isMeasuring: bool
    /** `currentDrawHandlerRef`: the enabled handler, named by the mode that started it. */
    var drawHandler: Option<DrawMode>
    /** The `map.once(CREATED, ...)` listeners still registered, in registration order. */
    var createdListeners: seq<DrawMode>
    var currentShape: Option<Shape>
    var measureLine: Option<Shape>
    var showLabelModal: bool
    var showQuestionModal: bool
    var showDistanceDisplay: bool
    var distanceValue: real
    var statusMessage: Option<Status>
    var form: Form
    var search: SearchBox
    var layers: Layers

    /** The mode flag of `m`. */
    function Drawing(m: DrawMode): bool
      reads this
    {
      match m
      case LabelMode => isDrawingLabel
      case QuestionMode => isDrawingQuestion
      case MeasureMode => isMeasuring
    }

    /** What `cancelCurrentDrawing` leaves behind: no mode, handler, shape, modal, readout or line. */
    predicate Idle()
      reads this
    {
      && !isDrawingLabel && !isDrawingQuestion && !isMeasuring
      && drawHandler.None? && currentShape.None? && measureLine.None?
      && !showLabelModal && !showQuestionModal && !showDistanceDisplay
    }

    /**
     * Each mode flag is set exactly when the handler belongs to that mode,
     * the handler's listener is registered, and while drawing nothing from
     * an earlier drawing is pending.
     */
    predicate Valid()
      reads this
    {
      && (isDrawingLabel <==> drawHandler == Some(LabelMode))
      && (isDrawingQuestion <==> drawHandler == Some(QuestionMode))
      && (isMeasuring <==> drawHandler == Some(MeasureMode))
      && (drawHandler.Some? ==>
        && drawHandler.value in createdListeners
        && currentShape.None? && measureLine.None?
        && !showLabelModal && !showQuestionModal && !showDistanceDisplay)
    }

    /** The drawing state is as it was. */
    twostate predicate SameDrawing()
      reads this
    {
      && isDrawingLabel == old(isDrawingLabel) && isDrawingQuestion == old(isDrawingQuestion)
      && isMeasuring == old(isMeasuring) && drawHandler == old(drawHandler)
      && createdListeners == old(createdListeners) && currentShape == old(currentShape)
      && measureLine == old(measureLine) && showLabelModal == old(showLabelModal)
      && showQuestionModal == old(showQuestionModal) && showDistanceDisplay == old(showDistanceDisplay)
      && distanceValue == old(distanceValue)
    }

    /** The page as first rendered, with both colour swatches at `#ff6b6b`. */
    constructor (userId: int, segment: (LatLng, LatLng) -> real)
      ensures this.userId == userId && this.segment == segment
      ensures Valid() && Idle() && createdListeners == []
      ensures distanceValue == 0.0 && statusMessage.None?
      ensures form == InitialForm && search == InitialSearch && layers == InitialLayers
    {
      this.userId := userId;
      this.segment := segment;
      isDrawingLabel, isDrawingQuestion, isMeasuring := false, false, false;
      drawHandler, createdListeners := None, [];
      currentShape, measureLine := None, None;
      showLabelModal, showQuestionModal, showDistanceDisplay := false, false, false;
      distanceValue, statusMessage := 0.0, None;
      form, search, layers := InitialForm, InitialSearch, InitialLayers;
    }

    /**
     * `cancelCurrentDrawing`: disables and drops the handler, clears every
     * mode flag, the pending shape, both modals and the distance readout,
     * and removes the measured line. The `once` listeners stay registered.
     */
    method CancelCurrentDrawing()
      requires Valid()
      modifies this
      ensures Valid() && Idle()
      ensures createdListeners == old(createdListeners) && distanceValue == old(distanceValue)
      ensures statusMessage == old(statusMessage)
      ensures form == old(form) && search == old(search) && layers == old(layers)
    {
      drawHandler := None;
      isDrawingLabel, isDrawingQuestion, isMeasuring := false, false, false;
      currentShape := None;
      showLabelModal, showQuestionModal, showDistanceDisplay := false, false, false;
      measureLine := None;
    }

    /**
     * The intended `cancelCurrentDrawing`: everything the code clears, and
     * also the `CREATED` listeners of the drawings it abandons
     * (`map.off(CREATED)`), so that none of them fires for a later shape.
     */
    method CancelDrawingFixed()
      requires Valid()
      modifies this
      ensures Valid() && Idle() && createdListeners == []
      ensures distanceValue == old(distanceValue) && statusMessage == old(statusMessage)
      ensures form == old(form) && search == old(search) && layers == old(layers)
    {
      CancelCurrentDrawing();
      createdListeners := [];
    }

    /**
     * `handleLabelClick`, `handleQuestionClick` and `handleMeasureClick`:
     * a click on the active mode's button cancels; any other click cancels,
     * sets that mode, enables a new handler and registers its `CREATED`
     * listener.
     */
    method HandleModeClick(m: DrawMode)
      requires Valid()
      modifies this
      ensures Valid()
      ensures old(Drawing(m)) ==> Idle() && createdListeners == old(createdListeners)
      ensures !old(Drawing(m)) ==>
        && drawHandler == Some(m) && createdListeners == old(createdListeners) + [m]
        && currentShape.None? && measureLine.None?
        && !showLabelModal && !showQuestionModal && !showDistanceDisplay
      ensures distanceValue == old(distanceValue) && statusMessage == old(statusMessage)
      ensures form == old(form) && search == old(search) && layers == old(layers)
    {
      if Drawing(m) {
        CancelCurrentDrawing();
        return;
      }
      CancelCurrentDrawing();
      match m {
        case LabelMode => isDrawingLabel := true;
        case QuestionMode => isDrawingQuestion := true;
        case MeasureMode => isMeasuring := true;
      }
      drawHandler := Some(m);
      createdListeners := createdListeners + [m];
    }

    /**
     * leaflet-draw's `CREATED` event for the enabled handler: every
     * registered `once` listener runs and is removed. A label listener keeps
     * the shape and opens the label modal, a question listener keeps it and
     * opens the question modal, and a measure listener shows the line with
     * its distance; each clears its own flag and the handler.
     */
    method OnShapeCreated(shape: Shape)
      requires Valid() && drawHandler.Some? && shape.kind == KindOf(drawHandler.value)
      modifies this
      ensures Valid()
      ensures drawHandler.None? && createdListeners == []
      ensures !isDrawingLabel && !isDrawingQuestion && !isMeasuring
      ensures showLabelModal == (LabelMode in old(createdListeners))
      ensures showQuestionModal == (QuestionMode in old(createdListeners))
      ensures currentShape == if LabelMode in old(createdListeners) || QuestionMode in old(createdListeners) then Some(shape) else None
      ensures showDistanceDisplay == (MeasureMode in old(createdListeners))
      ensures measureLine == if MeasureMode in old(createdListeners) then Some(shape) else None
      ensures distanceValue == if MeasureMode in old(createdListeners) then MeasuredDistance(shape, segment) else old(distanceValue)
      ensures statusMessage == old(statusMessage)
      ensures form == old(form) && search == old(search) && layers == old(layers)
    {
      var listeners := createdListeners;
      var i := 0;
      while i < |listeners|
        invariant 0 <= i <= |listeners|
        invariant drawHandler == if i == 0 then old(drawHandler) else None
        invariant isDrawingLabel == (old(isDrawingLabel) && LabelMode !in listeners[..i])
        invariant isDrawingQuestion == (old(isDrawingQuestion) && QuestionMode !in listeners[..i])
        invariant isMeasuring == (old(isMeasuring) && MeasureMode !in listeners[..i])
        invariant showLabelModal == (LabelMode in listeners[..i])
        invariant showQuestionModal == (QuestionMode in listeners[..i])
        invariant currentShape == if LabelMode in listeners[..i] || QuestionMode in listeners[..i] then Some(shape) else None
        invariant showDistanceDisplay == (MeasureMode in listeners[..i])
        invariant measureLine == if MeasureMode in listeners[..i] then Some(shape) else None
        invariant distanceValue == if MeasureMode in listeners[..i] then MeasuredDistance(shape, segment) else old(distanceValue)
        invariant createdListeners == listeners && statusMessage == old(statusMessage)
        invariant form == old(form) && search == old(search) && layers == old(layers)
      {
        assert listeners[..i + 1] == listeners[..i] + [listeners[i]];
        RunCreatedListener(listeners[i], shape);
        i := i + 1;
      }
      assert listeners[..i] == listeners;
      createdListeners := [];
    }

    /** One `once(CREATED)` listener of mode `m` running on `shape`. */
    method RunCreatedListener(m: DrawMode, shape: Shape)
      modifies this
      ensures drawHandler.None?
      ensures isDrawingLabel == (old(isDrawingLabel) && m != LabelMode)
      ensures isDrawingQuestion == (old(isDrawingQuestion) && m != QuestionMode)
      ensures isMeasuring == (old(isMeasuring) && m != MeasureMode)
      ensures showLabelModal == (old(showLabelModal) || m == LabelMode)
      ensures showQuestionModal == (old(showQuestionModal) || m == QuestionMode)
      ensures currentShape == if m != MeasureMode then Some(shape) else old(currentShape)
      ensures showDistanceDisplay == (old(showDistanceDisplay) || m == MeasureMode)
      ensures measureLine == if m == MeasureMode then Some(shape) else old(measureLine)
      ensures distanceValue == if m == MeasureMode then MeasuredDistance(shape, segment) else old(distanceValue)
      ensures createdListeners == old(createdListeners) && statusMessage == old(statusMessage)
      ensures form == old(form) && search == old(search) && layers == old(layers)
    {
      match m {
        case LabelMode =>
          currentShape := Some(shape);
          showLabelModal := true;
          isDrawingLabel := false;
        case QuestionMode =>
          currentShape := Some(shape);
          showQuestionModal := true;
          isDrawingQuestion := false;
        case MeasureMode =>
          var distance := 0.0;
          if shape.kind == PolylineShape {
            distance := CalculateDistance(shape.vertices, segment);
          }
          distanceValue := distance;
          showDistanceDisplay := true;
          measureLine := Some(shape);
          isMeasuring := false;
      }
      drawHandler := None;
    }

    /** The Cancel button of the label modal: hides it and keeps the shape. */
    method CloseLabelModal()
      requires Valid()
      modifies this
      ensures Valid() && !showLabelModal
      ensures currentShape == old(currentShape) && showQuestionModal == old(showQuestionModal)
      ensures drawHandler == old(drawHandler) && createdListeners == old(createdListeners)
      ensures statusMessage == old(statusMessage)
      ensures form == old(form) && search == old(search) && layers == old(layers)
    {
      showLabelModal := false;
    }

    /** The Cancel button of the question modal: hides it and keeps the shape. */
    method CloseQuestionModal()
      requires Valid()
      modifies this
      ensures Valid() && !showQuestionModal
      ensures currentShape == old(currentShape) && showLabelModal == old(showLabelModal)
      ensures drawHandler == old(drawHandler) && createdListeners == old(createdListeners)
      ensures statusMessage == old(statusMessage)
      ensures form == old(form) && search == old(search) && layers == old(layers)
    {
      showQuestionModal := false;
    }

    /** The inputs and colour swatches of the two modals. */
    method EditForm(f: Form)
      requires Valid()
      modifies this
      ensures Valid() && form == f
      ensures statusMessage == old(statusMessage) && SameDrawing()
      ensures search == old(search) && layers == old(layers)
    {
      form := f;
    }

    /** Typing into the search box. */
    method EditSearch(query: string)
      requires Valid()
      modifies this
      ensures Valid() && search == old(search).(query := query)
      ensures statusMessage == old(statusMessage) && SameDrawing()
      ensures form == old(form) && layers == old(layers)
    {
      search := search.(query := query);
    }

    /**
     * `submitLabel`: a blank title is reported and nothing is sent; without a
     * shape nothing happens; a polyline (a shape completed by a stale label
     * listener) has no ring, so flattening throws before anything is sent.
     * Otherwise the ring is flattened and posted; on success the shape and its
     * title marker join the label layer and the form closes (the reload is
     * `LoadLabels`); a failure only reports.
     */
    method SubmitLabel(outcome: SaveOutcome) returns (request: Option<LabelPayload>)
      requires Valid() && showLabelModal
      modifies this
      ensures Valid()
      ensures request == LabelRequest(userId, old(form), old(currentShape))
      ensures request.None? ==> SameDrawing() && form == old(form) && layers == old(layers)
      ensures request.None? ==> statusMessage == if IsBlank(old(form).labelTitle) then Some(TitleRequired) else old(statusMessage)
      ensures request.Some? && outcome == Saved ==>
        && layers == old(layers).(labelLayer := old(layers).labelLayer + Tagged(old(currentShape).value.vertices, old(form)))
        && form == old(form).(labelTitle := "", labelDescription := "")
        && !showLabelModal && currentShape.None?
        && statusMessage == Some(LabelAdded)
      ensures request.Some? && outcome != Saved ==>
        && SameDrawing() && form == old(form) && layers == old(layers)
        && statusMessage == Some(if outcome == Refused then SaveFailed else NetworkError)
      ensures showQuestionModal == old(showQuestionModal) && drawHandler == old(drawHandler)
      ensures createdListeners == old(createdListeners) && measureLine == old(measureLine)
      ensures showDistanceDisplay == old(showDistanceDisplay) && distanceValue == old(distanceValue)
      ensures search == old(search)
    {
      request := LabelRequest(userId, form, currentShape);
      if request.None? {
        if IsBlank(form.labelTitle) {
          statusMessage := Some(TitleRequired);
        }
        return;
      }
      match outcome {
        case Saved =>
          layers := layers.(labelLayer := layers.labelLayer + Tagged(currentShape.value.vertices, form));
          form := form.(labelTitle := "", labelDescription := "");
          showLabelModal := false;
          currentShape := None;
          statusMessage := Some(LabelAdded);
        case Refused =>
          statusMessage := Some(SaveFailed);
        case NetworkFailure =>
          statusMessage := Some(NetworkError);
      }
    }

    /**
     * `submitQuestion`: blank text is reported; without a shape nothing
     * happens; a polyline throws while its coordinates are read. Otherwise
     * the question is stored under the generated `id`, its polygon joins the
     * question layer (styled visible), the counter goes up and the form closes.
     */
    method SubmitQuestion(id: string)
      requires Valid() && showQuestionModal
      modifies this
      ensures Valid()
      ensures !Postable(old(form).questionText, old(currentShape)) ==>
        && SameDrawing() && form == old(form) && layers == old(layers)
        && statusMessage == if IsBlank(old(form).questionText) then Some(QuestionRequired) else old(statusMessage)
      ensures Postable(old(form).questionText, old(currentShape)) ==>
        && layers == Posted(old(layers), id, old(form), old(currentShape).value.vertices)
        && form == old(form).(questionText := "")
        && !showQuestionModal && currentShape.None?
        && statusMessage == Some(QuestionPosted)
      ensures showLabelModal == old(showLabelModal) && drawHandler == old(drawHandler)
      ensures createdListeners == old(createdListeners) && measureLine == old(measureLine)
      ensures showDistanceDisplay == old(showDistanceDisplay) && distanceValue == old(distanceValue)
      ensures search == old(search)
    {
      if !Postable(form.questionText, currentShape) {
        if IsBlank(form.questionText) {
          statusMessage := Some(QuestionRequired);
        }
        return;
      }
      layers := Posted(layers, id, form, currentShape.value.vertices);
      showQuestionModal := false;
      form := form.(questionText := "");
      currentShape := None;
      statusMessage := Some(QuestionPosted);
    }

    /**
     * `loadLabels`: a readable reply replaces the label list with its
     * `labels` (an absent list reads as empty) and redraws the label layer;
     * a polygon Leaflet refuses ends the redraw and is reported like an
     * unreadable reply, which changes nothing else.
     */
    method LoadLabels(response: LoadOutcome)
      requires Valid()
      modifies this
      ensures Valid()
      ensures response.Unreadable? ==> layers == old(layers) && statusMessage == Some(LoadFailed)
      ensures response.Received? ==>
        && layers == old(layers).(labels := response.labels.GetOr([]), labelLayer := RenderLabels(response.labels.GetOr([])).overlays)
        && statusMessage == if RenderLabels(response.labels.GetOr([])).failed then Some(LoadFailed) else old(statusMessage)
      ensures SameDrawing() && form == old(form) && search == old(search)
    {
      match response {
        case Unreadable =>
          statusMessage := Some(LoadFailed);
        case Received(list) =>
          var loaded := list.GetOr([]);
          var overlays, failed := DrawLabels(loaded);
          layers := layers.(labels := loaded, labelLayer := overlays);
          if failed {
            statusMessage := Some(LoadFailed);
          }
      }
    }

    /**
     * `handleSearchSubmit`: acted on only for Enter while not navigating. An
     * accepted "lat, lon" starts the flight (returned, at `SearchZoom`),
     * schedules the arrival marker and clears the box; anything else is
     * reported as invalid.
     */
    method HandleSearchSubmit(isEnter: bool, parseFloat: string -> Option<real>) returns (flight: Option<LatLng>)
      requires Valid()
      modifies this
      ensures Valid()
      ensures !isEnter || old(search).isNavigating ==> flight.None? && search == old(search) && statusMessage == old(statusMessage)
      ensures isEnter && !old(search).isNavigating ==>
        match ParseSearch(old(search).query, parseFloat)
        case Accepted(lat, lng) =>
          && flight == Some(LatLng(lat, lng))
          && search == old(search).(query := "", isNavigating := true, pendingArrival := flight)
          && statusMessage == Some(Navigating)
        case Invalid =>
          flight.None? && search == old(search) && statusMessage == Some(InvalidCoordinates)
      ensures SameDrawing() && form == old(form) && layers == old(layers)
    {
      flight := None;
      if isEnter && !search.isNavigating {
        match ParseSearch(search.query, parseFloat) {
          case Accepted(lat, lng) =>
            statusMessage := Some(Navigating);
            flight := Some(LatLng(lat, lng));
            search := search.(query := "", isNavigating := true, pendingArrival := flight);
          case Invalid =>
            statusMessage := Some(InvalidCoordinates);
        }
      }
    }

    /** The navigation timer firing: the searched point is marked and navigation ends. */
    method OnArrival()
      requires Valid()
      modifies this
      ensures Valid()
      ensures old(search).pendingArrival.Some? ==>
        && search == old(search).(markers := old(search).markers + [old(search).pendingArrival.value],
                                  isNavigating := false, pendingArrival := None)
        && statusMessage == Some(Arrived)
      ensures old(search).pendingArrival.None? ==> search == old(search) && statusMessage == old(statusMessage)
      ensures SameDrawing() && form == old(form) && layers == old(layers)
    {
      if search.pendingArrival.Some? {
        search := search.(markers := search.markers + [search.pendingArrival.value], isNavigating := false, pendingArrival := None);
        statusMessage := Some(Arrived);
      }
    }

    /** `clearSearch`, which both the Clear Search and the Analyze buttons run. */
    method ClearSearch()
      requires Valid()
      modifies this
      ensures Valid() && search == old(search).(markers := []) && statusMessage == Some(SearchCleared)
      ensures SameDrawing() && form == old(form) && layers == old(layers)
    {
      search := search.(markers := []);
      statusMessage := Some(SearchCleared);
    }

    /** `toggleForumVisibility`: flips the flag and restyles every question polygon to match. */
    method ToggleForumVisibility()
      requires Valid()
      modifies this
      ensures Valid() && layers.forumLayersVisible == !old(layers).forumLayersVisible
      ensures layers == old(layers).(forumLayersVisible := layers.forumLayersVisible, questionLayer := layers.questionLayer)
      ensures |layers.questionLayer| == |old(layers).questionLayer|
      ensures forall i :: 0 <= i < |layers.questionLayer| ==>
        layers.questionLayer[i] == Styled(old(layers).questionLayer[i], layers.forumLayersVisible)
      ensures statusMessage == Some(if layers.forumLayersVisible then ForumShown else ForumHidden)
      ensures SameDrawing() && form == old(form) && search == old(search)
    {
      var visible := !layers.forumLayersVisible;
      var areas := layers.questionLayer;
      var restyled := [];
      var i := 0;
      while i < |areas|
        invariant 0 <= i <= |areas| && |restyled| == i
        invariant forall k :: 0 <= k < i ==> restyled[k] == Styled(areas[k], visible)
      {
        restyled := restyled + [Styled(areas[i], visible)];
        i := i + 1;
      }
      layers := layers.(forumLayersVisible := visible, questionLayer := restyled);
      statusMessage := Some(if visible then ForumShown else ForumHidden);
    }

    /** The status banner's 3 s timer firing. */
    method HideStatus()
      requires Valid()
      modifies this
      ensures Valid() && statusMessage.None?
      ensures SameDrawing() && form == old(form) && search == old(search) && layers == old(layers)
    {
      statusMessage := None;
    }
  }

  /** Starting a mode leaves exactly that mode's flag set. */
  lemma StartLeavesOneMode(p: MarsMapPage, m: DrawMode)
    requires p.Valid() && p.drawHandler == Some(m)
    ensures forall n :: p.Drawing(n) <==> n == m
  {
  }

  /** Under the invariant at most one mode is active. */
  lemma AtMostOneMode(p: MarsMapPage)
    requires p.Valid()
    ensures !(p.isDrawingLabel && p.isDrawingQuestion)
    ensures !(p.isDrawingLabel && p.isMeasuring)
    ensures !(p.isDrawingQuestion && p.isMeasuring)
  {
  }

  /**
   * A label drawing toggled off still has its `once` listener, so a later
   * measurement also opens the label modal, holding the measured line; the
   * label cannot then be saved, since the line has no ring.
   */
  method StaleLabelListener(line: seq<LatLng>, segment: (LatLng, LatLng) -> real)
    returns (labelModalOpen: bool, distanceShown: bool, pendingShape: Option<Shape>, request: Option<LabelPayload>)
    ensures labelModalOpen && distanceShown
    ensures pendingShape == Some(Shape(PolylineShape, line))
    ensures request.None?
  {
    var page := new MarsMapPage(102, segment);
    page.HandleModeClick(LabelMode);
    page.HandleModeClick(LabelMode);
    page.HandleModeClick(MeasureMode);
    page.OnShapeCreated(Shape(PolylineShape, line));
    labelModalOpen, distanceShown, pendingShape := page.showLabelModal, page.showDistanceDisplay, page.currentShape;
    page.EditForm(InitialForm.(labelTitle := "Crater"));
    assert !IsBlank("Crater") by {
      assert TrimStart("Crater")[0] == 'C';
    }
    request := page.SubmitLabel(Saved);
  }

  /**
   * The same steps with the corrected cancel as the label toggle-off: the
   * measured line opens no modal, is the only shape kept, and its length is
   * shown.
   */
  method StaleListenerRemoved(line: seq<LatLng>, segment: (LatLng, LatLng) -> real)
    returns (labelModalOpen: bool, distanceShown: bool, pendingShape: Option<Shape>, distance: real)
    ensures !labelModalOpen && distanceShown
    ensures pendingShape.None? && distance == PathLength(line, segment)
  {
    var page := new MarsMapPage(102, segment);
    page.HandleModeClick(LabelMode);
    page.CancelDrawingFixed();
    page.HandleModeClick(MeasureMode);
    page.OnShapeCreated(Shape(PolylineShape, line));
    labelModalOpen, distanceShown, pendingShape := page.showLabelModal, page.showDistanceDisplay, page.currentShape;
    distance := page.distanceValue;
  }

  /** On a fresh page, a measurement opens no modal and shows the line's length. */
  method FreshMeasurement(line: seq<LatLng>, segment: (LatLng, LatLng) -> real)
    returns (modalOpen: bool, distanceShown: bool, distance: real)
    ensures !modalOpen && distanceShown
    ensures distance == PathLength(line, segment)
  {
    var page := new MarsMapPage(102, segment);
    page.HandleModeClick(MeasureMode);
    page.OnShapeCreated(Shape(PolylineShape, line));
    modalOpen := page.showLabelModal || page.showQuestionModal;
    distanceShown, distance := page.showDistanceDisplay, page.distanceValue;
  }
}

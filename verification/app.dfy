/** The upload, remove, analyze and resize handlers of the page as a state
    machine over the few values they read and write. */
module App {
  import opened Wrappers
  import opened Counts
  import opened Oracle
  import opened Classify
  import opened Regions

  /** A selected file; only its MIME type matters to the handlers. */
  datatype File = File(name: string, mimeType: string)

  /** `file.type.startsWith('image/')`. */
  predicate IsImage(f: File)
  {
    "image/" <= f.mimeType
  }

  /** `previewContainer.style.display`: never set (`''`), `'block'` or `'none'`. */
  datatype Display = Unset | Block | Hidden

  /** What the results panel shows after a successful run: the classifier's
      display name (undefined for an unknown id) and the five counter targets. */
  datatype Results = Results(name: Option<string>, counts: Counts, total: nat)

  /** `classifierNames`. */
  const ClassifierNames: map<string, string> :=
    map["knn-cosine" := "KNN Cosine", "knn-cubic" := "KNN Cubic", "naive-bayes" := "Naive Bayes"]

  /** `classifierNames[selectedClassifier]`. */
  function Label(id: string): Option<string>
  {
    if id in ClassifierNames then Some(ClassifierNames[id]) else None
  }

  /** The values the handlers share:
      `input` is `fileInput.files[0]`, `preview` the image behind `previewImage.src`,
      `analyzeEnabled` is `!analyzeBtn.disabled`, `pending` the classifier of the
      run awaiting `mockClassify` (the page is busy exactly while it is set),
      `resultsVisible` the display of the results panel and `results` what it holds. */
  datatype State = State(
    input: Option<File>,
    preview: Option<File>,
    display: Display,
    analyzeEnabled: bool,
    pending: Option<string>,
    resultsVisible: bool,
    results: Option<Results>,
    lastRegions: Option<seq<Region>>)

  predicate Busy(s: State)
  {
    s.pending.Some?
  }

  /** The Previewing state of the upload controller (Empty otherwise). */
  predicate Previewing(s: State)
  {
    s.display == Block
  }

  /** The page as loaded: nothing selected, analyze disabled, no results. */
  const Initial: State := State(None, None, Unset, false, None, false, None, None)

  /** `img.naturalWidth`, `img.naturalHeight` of a complete image. */
  datatype Dims = Dims(width: nat, height: nat)

  /** `img.complete && img.naturalWidth > 0 && img.naturalHeight > 0`. */
  predicate Loaded(image: Option<Dims>)
  {
    image.Some? && image.value.width > 0 && image.value.height > 0
  }

  /** How the awaited part of an analyze run ends: an error caught by the
      `catch`, or the classifier's draws, the preview image's state at that
      moment, and the marker draws. */
  datatype Outcome =
    | Failed
    | Classified(draws: Draws, image: Option<Dims>, regionDraws: seq<RegionDraw>)

  datatype Event =
    | Pick(file: Option<File>)      // click on the upload area, then a choice in the picker
    | Drop(file: Option<File>)      // a drop on the upload area
    | Remove                        // the remove-image button
    | AnalyzeClick(classifier: string)
    | AnalyzeFinish(outcome: Outcome)

  /** A completing run supplies enough marker draws for the counts it produces. */
  predicate ValidEvent(s: State, e: Event)
  {
    match e
    case AnalyzeFinish(Classified(draws, _, regionDraws)) =>
      Busy(s) ==> DrawStream(regionDraws, Total(MockClassify(s.pending.value, draws)))
    case _ => true
  }

  /** The upload area opens the picker only while no preview is displayed. */
  predicate PickerOpens(s: State)
  {
    s.display != Block
  }

  /** `displayPreview`'s `onload`: show the image, enable analyze, forget the markers. */
  function ShowPreview(s: State, f: File): State
  {
    s.(preview := Some(f), display := Block, analyzeEnabled := true, lastRegions := None)
  }

  /** The page's response to one event. */
  function Step(s: State, e: Event): State
    requires ValidEvent(s, e)
  {
    match e
    case Pick(file) =>
      if !PickerOpens(s) then s
      else
        var s' := s.(input := file);
        if file.Some? && IsImage(file.value) then ShowPreview(s', file.value) else s'
    case Drop(file) =>
      if file.Some? && IsImage(file.value) then ShowPreview(s.(input := file), file.value) else s
    case Remove =>
      s.(input := None, preview := None, display := Hidden, analyzeEnabled := false,
         resultsVisible := false, lastRegions := None)
    case AnalyzeClick(id) =>
      if !s.analyzeEnabled || s.input.None? then s
      else s.(analyzeEnabled := false, pending := Some(id), resultsVisible := false)
    case AnalyzeFinish(outcome) =>
      if !Busy(s) then s
      else
        var done := s.(pending := None, analyzeEnabled := true);
        match outcome
        case Failed => done
        case Classified(draws, image, regionDraws) =>
          var id := s.pending.value;
          var counts := MockClassify(id, draws);
          var regions :=
            if Loaded(image)
            then Some(GenerateRegions(image.value.width as real, image.value.height as real, counts, regionDraws))
            else s.lastRegions;
          done.(lastRegions := regions, results := Some(Results(Label(id), counts, Total(counts))),
                resultsVisible := true)
  }

  /** The debounced resize handler: the markers it redraws, if any. */
  function ResizeRedraw(s: State): Option<seq<Region>>
  {
    if s.lastRegions.Some? && s.display != Hidden then s.lastRegions else None
  }

  // ---------------------------------------------------------------------------
  // Per-event rules

  /** A dropped file that is not an image, or a drop without a file, changes nothing. */
  lemma DropNonImageChangesNothing(s: State, file: Option<File>)
    requires file.None? || !IsImage(file.value)
    ensures Step(s, Drop(file)) == s
  {
  }

  /** A non-image choice in the picker leaves every value the handlers own
      unchanged; only the browser's own `fileInput.files` takes the choice. */
  lemma PickNonImageChangesNothing(s: State, file: Option<File>)
    requires file.None? || !IsImage(file.value)
    ensures Step(s, Pick(file)) == if PickerOpens(s) then s.(input := file) else s
  {
  }

  /** Selecting an image (a drop, or the picker when it can open) previews it,
      enables analyze and clears the cached markers; the results panel and the
      counters are left as they were. */
  lemma SelectImageEnablesAnalyze(s: State, f: File, viaDrop: bool)
    requires IsImage(f)
    requires viaDrop || PickerOpens(s)
    ensures var t := Step(s, if viaDrop then Drop(Some(f)) else Pick(Some(f)));
      && Previewing(t) && t.preview == Some(f) && t.input == Some(f)
      && t.analyzeEnabled && t.lastRegions.None?
      && t.resultsVisible == s.resultsVisible && t.results == s.results && t.pending == s.pending
  {
  }

  /** Remove returns to Empty: analyze disabled, results hidden, no file and no markers. */
  lemma RemoveResets(s: State)
    ensures var t := Step(s, Remove);
      && !Previewing(t) && t.preview.None? && t.input.None?
      && !t.analyzeEnabled && !t.resultsVisible && t.lastRegions.None?
      && ResizeRedraw(t).None?
  {
  }

  /** Analyze with no file selected is a no-op, and so is a click on the disabled button. */
  lemma AnalyzeWithoutFileIsNoop(s: State, id: string)
    requires s.input.None? || !s.analyzeEnabled
    ensures Step(s, AnalyzeClick(id)) == s
  {
  }

  /** Starting a run makes the page busy, disables analyze and hides old results. */
  lemma AnalyzeStartIsBusy(s: State, id: string)
    requires s.analyzeEnabled && s.input.Some?
    ensures var t := Step(s, AnalyzeClick(id));
      Busy(t) && t.pending == Some(id) && !t.analyzeEnabled && !t.resultsVisible
  {
  }

  /** However a run ends, the page is no longer busy and analyze is enabled
      again; an error leaves the results panel as the start left it. */
  lemma AnalyzeFinishReleases(s: State, outcome: Outcome)
    requires Busy(s)
    requires ValidEvent(s, AnalyzeFinish(outcome))
    ensures var t := Step(s, AnalyzeFinish(outcome));
      && !Busy(t) && t.analyzeEnabled
      && (outcome.Failed? ==> t.resultsVisible == s.resultsVisible && t.results == s.results
                              && t.lastRegions == s.lastRegions)
  {
  }

  /** A successful run shows the classifier's display name and its counts,
      and the total counter targets their sum. */
  lemma AnalyzeFinishShowsCounts(s: State, draws: Draws, image: Option<Dims>, regionDraws: seq<RegionDraw>)
    requires Busy(s)
    requires ValidEvent(s, AnalyzeFinish(Classified(draws, image, regionDraws)))
    ensures var t := Step(s, AnalyzeFinish(Classified(draws, image, regionDraws)));
      var counts := MockClassify(s.pending.value, draws);
      && t.resultsVisible
      && t.results == Some(Results(Label(s.pending.value), counts, counts.a + counts.b + counts.c + counts.d))
  {
  }

  /** When the image has loaded, a successful run caches markers that are
      exactly `counts[c]` of each category, so as many as the total counter
      shows; a later resize redraws that very list while the preview is shown. */
  lemma AnalyzeFinishCachesMarkers(s: State, draws: Draws, image: Option<Dims>, regionDraws: seq<RegionDraw>)
    requires Busy(s)
    requires ValidEvent(s, AnalyzeFinish(Classified(draws, image, regionDraws)))
    requires Loaded(image)
    ensures var t := Step(s, AnalyzeFinish(Classified(draws, image, regionDraws)));
      var counts := MockClassify(s.pending.value, draws);
      && t.lastRegions.Some?
      && |t.lastRegions.value| == Total(counts)
      && (forall cat :: Count(CategoriesOf(t.lastRegions.value), cat) == Get(counts, cat))
      && (s.display != Hidden ==> ResizeRedraw(t) == t.lastRegions)
  {
    var counts := MockClassify(s.pending.value, draws);
    var rs := GenerateRegions(image.value.width as real, image.value.height as real, counts, regionDraws);
    forall cat
      ensures Count(CategoriesOf(rs), cat) == Get(counts, cat)
    {
      GenerateCountsPerCategory(image.value.width as real, image.value.height as real, counts, regionDraws, cat);
    }
  }

  /** Choosing "knn-cosine" and running the analysis to success: each counter
      lies in that profile's range, the total is their sum, the panel is
      visible and reads "KNN Cosine". */
  lemma KnnCosineEndToEnd(s: State, draws: Draws, image: Option<Dims>, regionDraws: seq<RegionDraw>)
    requires s.analyzeEnabled && s.input.Some?
    requires ValidEvent(Step(s, AnalyzeClick("knn-cosine")), AnalyzeFinish(Classified(draws, image, regionDraws)))
    ensures var t := Step(Step(s, AnalyzeClick("knn-cosine")), AnalyzeFinish(Classified(draws, image, regionDraws)));
      && t.resultsVisible && t.analyzeEnabled && !Busy(t)
      && t.results.Some? && t.results.value.name == Some("KNN Cosine")
      && var c := t.results.value.counts;
      && 15 <= c.a <= 39 && 10 <= c.b <= 29 && 5 <= c.c <= 19 && 2 <= c.d <= 11
      && t.results.value.total == c.a + c.b + c.c + c.d
  {
    var m := Step(s, AnalyzeClick("knn-cosine"));
    assert m.pending == Some("knn-cosine");
    AnalyzeFinishShowsCounts(m, draws, image, regionDraws);
  }

  /** A resize never changes the state, and redraws only while markers are
      cached and the preview is not hidden. */
  lemma ResizeRedrawsOnlyCachedMarkers(s: State)
    ensures ResizeRedraw(s).Some? ==> s.lastRegions.Some? && ResizeRedraw(s).value == s.lastRegions.value
    ensures s.lastRegions.None? || s.display == Hidden ==> ResizeRedraw(s).None?
  {
  }

  // ---------------------------------------------------------------------------
  // Invariant over sequential use

  /** The markers agree with the counters of the results panel. */
  predicate MarkersMatch(s: State)
  {
    s.lastRegions.Some? ==>
      && s.results.Some?
      && |s.lastRegions.value| == s.results.value.total
      && forall cat :: Count(CategoriesOf(s.lastRegions.value), cat) == Get(s.results.value.counts, cat)
  }

  /** The consistency the handlers keep when events do not interleave with a
      pending run: a preview is shown exactly when an image is held, analyze is
      enabled exactly when an image is previewed and no run is pending, and the
      markers are cached only while a preview is shown and match the counters. */
  predicate Inv(s: State)
  {
    && (s.preview.Some? <==> Previewing(s))
    && (s.analyzeEnabled <==> Previewing(s) && !Busy(s))
    && (Previewing(s) ==> s.input.Some?)
    && (Busy(s) ==> Previewing(s) && !s.resultsVisible)
    && (s.resultsVisible ==> s.results.Some? && Previewing(s))
    && (s.lastRegions.Some? ==> Previewing(s))
    && (s.results.Some? ==> s.results.value.total == Total(s.results.value.counts))
    && MarkersMatch(s)
  }

  /** The environment the invariant assumes: events do not interleave with a
      pending run (while busy, the only event is the run's own completion), and
      an image the cached markers were generated for is still loaded when the
      next run completes. */
  predicate Sequential(s: State, e: Event)
  {
    && (Busy(s) ==> e.AnalyzeFinish?)
    && (e.AnalyzeFinish? && e.outcome.Classified? && s.lastRegions.Some? ==> Loaded(e.outcome.image))
  }

  lemma InitialInv()
    ensures Inv(Initial) && !Initial.analyzeEnabled && !Previewing(Initial)
  {
  }

  /** Every sequential step keeps the invariant. */
  lemma StepKeepsInv(s: State, e: Event)
    requires Inv(s)
    requires ValidEvent(s, e)
    requires Sequential(s, e)
    ensures Inv(Step(s, e))
  {
    if e.AnalyzeFinish? && Busy(s) && e.outcome.Classified? && Loaded(e.outcome.image) {
      AnalyzeFinishCachesMarkers(s, e.outcome.draws, e.outcome.image, e.outcome.regionDraws);
    }
  }

  /** Under the invariant, a resize redraws exactly when markers are cached,
      and then the preview is shown. */
  lemma ResizeUnderInv(s: State)
    requires Inv(s)
    ensures ResizeRedraw(s).Some? <==> s.lastRegions.Some?
    ensures ResizeRedraw(s).Some? ==> Previewing(s)
  {
  }

  /** Why the invariant is stated for sequential use only: a remove while a run
      is pending, followed by that run's completion, leaves analyze enabled
      with no file and no preview. */
  lemma StaleFinishAfterRemove(s: State)
    requires Inv(s) && Busy(s)
    ensures var t := Step(Step(s, Remove), AnalyzeFinish(Failed));
      t.analyzeEnabled && t.input.None? && !Previewing(t) && !Inv(t)
  {
  }
}

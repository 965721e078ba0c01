/** The study detail page: it derives a signal tag and a study id from the
    URL path, loads a simulated study when a timer fires, and chooses what
    to show from its four state fields. Each run of the effect and each
    timer firing is an explicit method call; the timer carries the values
    its callback closed over. */
module DetalleSenal {
  import opened Common
  import opened Chart
  import EcgVisualizer
  import EspirometriaVisualizer

  const NotRecognized: string := "Tipo de señal no reconocido"

  datatype Patient = Patient(nombre: string, edad: nat, genero: string, altura: nat, peso: nat)

  /** `senalData`: the ECG sample array or the spirometry curve object. */
  datatype SenalData =
    | Samples(samples: seq<real>)
    | Curve(data: EspirometriaVisualizer.Data)

  /** A study record. `resultados` holds the numeric results by name; its
      `conclusion` text is kept in a field of its own. */
  datatype Study = Study(
    id: string,
    paciente: Patient,
    fecha: string,
    medico: string,
    departamento: string,
    resultados: map<string, real>,
    conclusion: string,
    senalData: SenalData)

  const EcgPatient := Patient("Juan Pérez", 45, "M", 178, 75)
  const EcgResultados: map<string, real> :=
    map["frecuenciaCardiaca" := 72.0, "intervalosPR" := 160.0, "duracionQRS" := 90.0,
        "intervaloQT" := 380.0, "ejeElectrico" := 30.0]
  const EcgConclusion := "Ritmo sinusal normal sin alteraciones significativas."

  /** The simulated ECG study for `id`: its trace is the one the ECG
      component draws when given no data. */
  function EcgStudy(id: string): (s: Study)
    ensures s.id == id
    ensures s.senalData == Samples(EcgVisualizer.SimulatedData(None))
  {
    Study(id, EcgPatient, "2025-04-15", "Dra. María Rodríguez", "Cardiología",
      EcgResultados, EcgConclusion, Samples(EcgVisualizer.DefaultSamples))
  }

  /** The simulated spirometry study for `id`: its curve and measured
      values are the ones the spirometry component shows when given no
      data. */
  function EspirometriaStudy(id: string): (s: Study)
    ensures s.id == id
    ensures s.senalData == Curve(EspirometriaVisualizer.SimulatedData(None))
    ensures s.resultados == EspirometriaVisualizer.SimulatedData(None).valores
  {
    Study(id, EspirometriaPatient, "2025-04-10", "Dr. Pablo Sánchez", "Neumología",
      EspirometriaVisualizer.DefaultValues, EspirometriaConclusion,
      Curve(EspirometriaVisualizer.Data(EspirometriaVisualizer.DefaultCurve, EspirometriaVisualizer.DefaultValues)))
  }

  const EspirometriaPatient := Patient("María López", 32, "F", 165, 62)
  const EspirometriaConclusion :=
    "Prueba de espirometría sin alteraciones significativas. Patrón respiratorio normal."

  /** The tag the effect sets from the path: `'ecg'` if the path contains
      it, else `'espirometria'` if the path contains that, else the
      current tag is left as it is. */
  function TagOf(current: string, path: string): (tag: string)
    ensures Contains(path, "ecg") ==> tag == "ecg"
    ensures !Contains(path, "ecg") && Contains(path, "espirometria") ==> tag == "espirometria"
    ensures !Contains(path, "ecg") && !Contains(path, "espirometria") ==> tag == current
  {
    match PathKind(path)
    case Some(Ecg) => "ecg"
    case Some(Espirometria) => "espirometria"
    case None => current
  }

  /** `idEstudio`: the last element of `path.split('/')`, which is the
      part of the path after its last `/` (all of it when there is none);
      it holds no `/`, and a trailing `/` gives the empty id. */
  function IdEstudio(path: string): (id: string)
    ensures '/' !in id && |id| <= |path| && path[|path| - |id|..] == id
    ensures id == path || path[|path| - |id| - 1] == '/'
    ensures |path| > 0 && path[|path| - 1] == '/' ==> id == ""
  {
    LastPieceIsTail(path, '/');
    LastPiece(path, '/')
  }

  /** What the timer callback loads for a tag: a study, or `None` when it
      takes the error branch. */
  function Resolve(tag: string, id: string): (r: Option<Study>)
    ensures r.Some? <==> tag == "ecg" || tag == "espirometria"
    ensures r.Some? ==> r.value.id == id
  {
    if tag == "ecg" then Some(EcgStudy(id))
    else if tag == "espirometria" then Some(EspirometriaStudy(id))
    else None
  }

  /** A pending `setTimeout` callback with the values it closed over: the
      `tipoSenal` of the render whose effect scheduled it, and the id. */
  datatype Timer = Timer(capturedTag: string, idEstudio: string)

  /** What the page shows. */
  datatype Screen =
    | ErrorScreen(message: string)
    | LoadingScreen
    | DetailsScreen(study: Study)
    | NoDataScreen

  /** The page component with its four `useState` fields. */
  class Page {
    var loading: bool
    var tipoSenal: string
    var detalleEstudio: Option<Study>
    var error: string

    constructor ()
      ensures loading && tipoSenal == "" && detalleEstudio == None && error == ""
    {
      loading := true;
      tipoSenal := "";
      detalleEstudio := None;
      error := "";
    }

    /** One run of the effect: sets the tag from the path and schedules
        the timer. The callback closes over `tipoSenal` as it was when the
        effect ran, before the tag set here takes effect. */
    method RunEffect(path: string) returns (timer: Timer)
      modifies this
      ensures tipoSenal == TagOf(old(tipoSenal), path)
      ensures timer == Timer(old(tipoSenal), IdEstudio(path))
      ensures loading == old(loading) && detalleEstudio == old(detalleEstudio) && error == old(error)
    {
      var rendered := tipoSenal;
      var segments := Split(path, '/');
      tipoSenal := TagOf(tipoSenal, path);
      var idEstudio := segments[|segments| - 1];
      timer := Timer(rendered, idEstudio);
    }

    /** The timer firing: loads the study for the captured tag or sets the
        error, and in every branch ends the loading state. Nothing ever
        clears `error`. */
    method FireTimer(timer: Timer)
      modifies this
      ensures !loading && tipoSenal == old(tipoSenal)
      ensures var r := Resolve(timer.capturedTag, timer.idEstudio);
        if r.Some? then detalleEstudio == r && error == old(error)
        else error == NotRecognized && detalleEstudio == old(detalleEstudio)
    {
      if timer.capturedTag == "ecg" {
        detalleEstudio := Some(EcgStudy(timer.idEstudio));
      } else if timer.capturedTag == "espirometria" {
        detalleEstudio := Some(EspirometriaStudy(timer.idEstudio));
      } else {
        error := NotRecognized;
      }
      loading := false;
    }

    /** The effect as evidently intended: the timer carries the tag just
        derived from the path rather than the one of the previous render. */
    method RunEffectIntended(path: string) returns (timer: Timer)
      modifies this
      ensures tipoSenal == TagOf(old(tipoSenal), path)
      ensures timer == Timer(tipoSenal, IdEstudio(path))
      ensures loading == old(loading) && detalleEstudio == old(detalleEstudio) && error == old(error)
    {
      var segments := Split(path, '/');
      tipoSenal := TagOf(tipoSenal, path);
      var idEstudio := segments[|segments| - 1];
      timer := Timer(tipoSenal, idEstudio);
    }

    /** What the page shows: an error hides everything, then the loading
        message, then the study details, then the "no data" message. */
    function View(): (s: Screen)
      reads this
      ensures s.ErrorScreen? <==> error != ""
      ensures s.ErrorScreen? ==> s.message == error
      ensures s.LoadingScreen? <==> error == "" && loading
      ensures s.DetailsScreen? <==> error == "" && !loading && detalleEstudio.Some?
      ensures s.DetailsScreen? ==> detalleEstudio == Some(s.study)
      ensures s.NoDataScreen? <==> error == "" && !loading && detalleEstudio.None?
    {
      if error != "" then ErrorScreen(error)
      else if loading then LoadingScreen
      else if detalleEstudio.Some? then DetailsScreen(detalleEstudio.value)
      else NoDataScreen
    }
  }

  /** The first timer always closes over the initial empty tag, so its
      firing takes the error branch whatever the path: mounting the page,
      running its effect once and firing that timer leaves it on the
      error, not loading and with no study. */
  method FirstTimerFails(path: string) returns (page: Page, timer: Timer)
    ensures timer == Timer("", IdEstudio(path))
    ensures page.error == NotRecognized && !page.loading && page.detalleEstudio == None
    ensures page.View() == ErrorScreen(NotRecognized)
  {
    page := new Page();
    timer := page.RunEffect(path);
    page.FireTimer(timer);
  }

  /** Opening the page at `path` as React drives it: the effect runs after
      mounting, runs again because it changed `tipoSenal` (its only
      dependency) when the path names a signal, and the timers fire in the
      order they were scheduled. The first timer carries the initial empty
      tag and sets the error, which is never cleared: the page ends on the
      error screen for every path, even when the second timer has loaded
      the right study. */
  method Open(path: string) returns (page: Page)
    ensures !page.loading && page.tipoSenal == TagOf("", path)
    ensures page.error == NotRecognized
    ensures page.View() == ErrorScreen(NotRecognized)
    ensures page.detalleEstudio == Resolve(page.tipoSenal, IdEstudio(path))
  {
    page := new Page();
    var first := page.RunEffect(path);
    var second: Option<Timer> := None;
    if page.tipoSenal != first.capturedTag {
      var again := page.RunEffect(path);
      second := Some(again);
    }
    page.FireTimer(first);
    if second.Some? {
      page.FireTimer(second.value);
    }
  }

  /** The same sequence with the intended effect: a path that names a
      signal ends on the details of the matching study, whose id is the
      path's last segment; any other path ends on the error screen. */
  method OpenIntended(path: string) returns (page: Page)
    ensures !page.loading && page.tipoSenal == TagOf("", path)
    ensures PathKind(path).Some? ==>
      page.error == "" &&
      page.detalleEstudio == Resolve(page.tipoSenal, IdEstudio(path)) &&
      page.View() == DetailsScreen(page.detalleEstudio.value) &&
      page.detalleEstudio.value.id == IdEstudio(path)
    ensures PathKind(path).None? ==>
      page.View() == ErrorScreen(NotRecognized) && page.detalleEstudio == None
  {
    page := new Page();
    var first := page.RunEffectIntended(path);
    var second: Option<Timer> := None;
    if page.tipoSenal != "" {
      var again := page.RunEffectIntended(path);
      second := Some(again);
    }
    page.FireTimer(first);
    if second.Some? {
      page.FireTimer(second.value);
    }
  }

  /** The chart area of the details. */
  datatype Visualizer =
    | NoVisualizer
    | EcgChart(data: SenalData)
    | EspirometriaChart(data: SenalData)
    | NotSupported

  /** `renderVisualizador`: nothing without a study, else the visualiser
      chosen by the tag, fed the study's `senalData`. */
  function RenderVisualizador(tag: string, study: Option<Study>): (v: Visualizer)
    ensures study.None? <==> v.NoVisualizer?
    ensures v.EcgChart? <==> study.Some? && tag == "ecg"
    ensures v.EspirometriaChart? <==> study.Some? && tag == "espirometria"
    ensures v.NotSupported? <==> study.Some? && tag != "ecg" && tag != "espirometria"
    ensures (v.EcgChart? || v.EspirometriaChart?) ==> v.data == study.value.senalData
  {
    if study.None? then NoVisualizer
    else if tag == "ecg" then EcgChart(study.value.senalData)
    else if tag == "espirometria" then EspirometriaChart(study.value.senalData)
    else NotSupported
  }

  /** A study loaded for `'ecg'` is drawn by the ECG strip, which gets
      the 21-sample trace and draws 21 commands from x = 20 to x = 780. */
  lemma EcgStudyIsDrawn(id: string)
    ensures var v := RenderVisualizador("ecg", Resolve("ecg", id));
      v.EcgChart? && v.data.Samples? &&
      var path := EcgVisualizer.GeneratePath(EcgVisualizer.Strip,
        EcgVisualizer.SimulatedData(Some(v.data.samples)));
      |path| == 21 && path[0].x == Num(20.0) && path[20].x == Num(780.0)
  {
    var v := RenderVisualizador("ecg", Resolve("ecg", id));
    assert v.data.samples == EcgVisualizer.SimulatedData(None);
    EcgVisualizer.DefaultStrip();
  }

  /** A study loaded for `'espirometria'` is drawn by the flow-volume
      chart, which gets the 11-point curve and draws 11 commands that never
      move left and stay inside the box. */
  lemma EspirometriaStudyIsDrawn(id: string)
    ensures var v := RenderVisualizador("espirometria", Resolve("espirometria", id));
      v.EspirometriaChart? && v.data.Curve? &&
      var path := EspirometriaVisualizer.GeneratePath(EspirometriaVisualizer.Loop,
        EspirometriaVisualizer.SimulatedData(Some(v.data.data)).curva);
      |path| == 11 &&
      (forall i, j :: 0 <= i < j < 11 ==> path[i].x.value <= path[j].x.value) &&
      (forall i :: 0 <= i < 11 ==> 40.0 <= path[i].x.value <= 560.0 && 40.0 <= path[i].y.value <= 360.0)
  {
    var v := RenderVisualizador("espirometria", Resolve("espirometria", id));
    assert v.data.data.curva == EspirometriaVisualizer.DefaultCurve;
    EspirometriaVisualizer.DefaultPath();
  }

  /** The ECG results table: metric names and units in display order. */
  const EcgMetrics: seq<string> := ["frecuenciaCardiaca", "intervalosPR", "duracionQRS", "intervaloQT", "ejeElectrico"]
  const EcgUnits: seq<string> := ["lpm", "ms", "ms", "ms", "°"]

  /** The ECG results rows. The order, keys and units in the contract are
      the table as the page lays it out; what depends on the input is only
      each value, read from `resultados` under the row's key and absent
      when the key is missing. */
  function EcgRows(resultados: map<string, real>): (rows: seq<Row>)
    ensures |rows| == |EcgMetrics|
    ensures forall k :: 0 <= k < |rows| ==>
      rows[k] == Row(EcgMetrics[k], Lookup(resultados, EcgMetrics[k]), EcgUnits[k])
  {
    seq(|EcgMetrics|, k requires 0 <= k < |EcgMetrics| =>
      Row(EcgMetrics[k], Lookup(resultados, EcgMetrics[k]), EcgUnits[k]))
  }

  /** The results section of the details. */
  datatype Details =
    | NoDetails
    | EcgDetails(rows: seq<Row>, conclusion: string)
    | EspirometriaDetails(rows: seq<Row>, conclusion: string)

  /** `renderDetallesEspecificos`: nothing without a study or for another
      tag; otherwise the tag's results table and the conclusion. */
  function RenderDetallesEspecificos(tag: string, study: Option<Study>): (d: Details)
    ensures d.NoDetails? <==> study.None? || (tag != "ecg" && tag != "espirometria")
    ensures d.EcgDetails? ==> tag == "ecg" && d == EcgDetails(EcgRows(study.value.resultados), study.value.conclusion)
    ensures d.EspirometriaDetails? ==> (tag == "espirometria" &&
      d == EspirometriaDetails(EspirometriaVisualizer.MeasuredValues(study.value.resultados), study.value.conclusion))
  {
    if study.None? then NoDetails
    else if tag == "ecg" then EcgDetails(EcgRows(study.value.resultados), study.value.conclusion)
    else if tag == "espirometria" then
      EspirometriaDetails(EspirometriaVisualizer.MeasuredValues(study.value.resultados), study.value.conclusion)
    else NoDetails
  }

  /** What each tag loads: the ECG study reports 72 lpm, PR 160 ms, QRS
      90 ms, QT 380 ms and axis 30 degrees over a 21-sample trace; the
      spirometry study's curve has 11 points whose volume rises from 0 to
      5 L without decreasing, and its table reads the five spirometry
      values. */
  lemma ResolvedStudies(id: string)
    ensures var s := Resolve("ecg", id).value;
      RenderDetallesEspecificos("ecg", Some(s)) == EcgDetails([
        Row("frecuenciaCardiaca", Some(72.0), "lpm"), Row("intervalosPR", Some(160.0), "ms"),
        Row("duracionQRS", Some(90.0), "ms"), Row("intervaloQT", Some(380.0), "ms"),
        Row("ejeElectrico", Some(30.0), "°")], s.conclusion) &&
      s.senalData.Samples? && |s.senalData.samples| == 21
    ensures var s := Resolve("espirometria", id).value;
      s.senalData.Curve? && |s.senalData.data.curva| == 11 &&
      s.senalData.data.curva[0].volumen == 0.0 && s.senalData.data.curva[10].volumen == 5.0 &&
      EspirometriaVisualizer.VolumeNonDecreasing(s.senalData.data.curva) &&
      RenderDetallesEspecificos("espirometria", Some(s)) ==
        EspirometriaDetails(EspirometriaVisualizer.MeasuredValues(EspirometriaVisualizer.DefaultValues), s.conclusion)
  {
    var s := Resolve("ecg", id).value;
    var rows := EcgRows(s.resultados);
    assert rows[0].value == Some(72.0);
    EspirometriaVisualizer.DefaultCurveShape();
  }

  /** The gender cell: `'M'` reads "Masculino", every other value
      "Femenino". */
  function GeneroLabel(genero: string): (text: string)
    ensures text == "Masculino" <==> genero == "M"
    ensures text == "Femenino" <==> genero != "M"
  {
    if genero == "M" then "Masculino" else "Femenino"
  }
}

/** The dashboard component's state and the handlers that change it: the
    status log, the predictor's readiness, the boot sequence, the diagnostic
    run (split at its simulated-latency `await`), the latest result and the
    patient history it prepends to. */
module Dashboard {
  import opened Decimal
  import opened Scoring
  import opened StatusLog
  import opened Patients
  import opened Analytics

  /** booting until the predictor is loaded, then ready; a run goes through
      processing to done. */
  datatype SystemState = Booting | Ready | Processing | Done

  datatype Option<T> = None | Some(value: T)

  const BOOT_MSG: string := "Inicializando VitalIA Kernel v7.0..."
  const LOADED_MSG: string := "✅ Motor IA Cargado."
  const FALLBACK_MSG: string := "⚠️ Usando simulador (Modelo no encontrado)"
  const PROCESSING_MSG: string := "Procesando datos biométricos..."

  const PENALTY_PREFIX: string := "⚠️ Pre-existencia detectada: +"
  const PENALTY_SUFFIX: string := "% Riesgo"

  /** The log line announcing a comorbidity penalty: the fixed prefix and
      suffix around the penalty's decimal digits, which read back as the
      penalty. */
  function PenaltyMessage(penalty: nat): (m: string)
    ensures |m| > |PENALTY_PREFIX| + |PENALTY_SUFFIX|
    ensures m[..|PENALTY_PREFIX|] == PENALTY_PREFIX && m[|m| - |PENALTY_SUFFIX|..] == PENALTY_SUFFIX
    ensures AllDigits(m[|PENALTY_PREFIX|..|m| - |PENALTY_SUFFIX|])
    ensures DecimalValue(m[|PENALTY_PREFIX|..|m| - |PENALTY_SUFFIX|]) == penalty
  {
    var digits := NatToString(penalty);
    DecimalRoundTrip(penalty);
    var m := PENALTY_PREFIX + digits + PENALTY_SUFFIX;
    assert m[|PENALTY_PREFIX|..|m| - |PENALTY_SUFFIX|] == digits;
    m
  }

  /** `PT-` followed by floor(1000 + draw * 9000), for a uniform draw in [0, 1):
      always "PT-" and four digits naming a number from 1000 to 9999. */
  function PatientId(draw: real): (id: string)
    requires 0.0 <= draw < 1.0
    ensures |id| == 7 && id[..3] == "PT-" && AllDigits(id[3..])
    ensures 1000 <= DecimalValue(id[3..]) <= 9999
  {
    var n := (1000.0 + draw * 9000.0).Floor;
    FourDigits(n);
    DecimalRoundTrip(n);
    var id := "PT-" + NatToString(n);
    assert id[3..] == NatToString(n);
    id
  }

  /** The messages one diagnostic run writes to the log, in order. */
  function RunMessages(enfermedad: string): seq<string> {
    if Penalty(enfermedad) > 0 then [PROCESSING_MSG, PenaltyMessage(Penalty(enfermedad))]
    else [PROCESSING_MSG]
  }

  class VitalIA {
    var modelLoaded: bool
    var systemState: SystemState
    var logs: seq<string>
    var db: seq<Paciente>
    var inputs: Inputs
    var result: Option<Diagnosis>
    /** The form values the running diagnostic captured when it started: the
        handler is a closure over the render's `inputs`, so edits made during
        the simulated latency do not reach the run. */
    var runInputs: Inputs
    /** How many records at the front of db were added by diagnostic runs. */
    ghost var runs: nat

    /** A predictor exists once the page has left booting; a result is shown
        exactly when the last run is done; the log keeps at most four lines;
        the history is the runs' records, newest first, before the seed
        records, and every run's record is consistent with the scorer. */
    ghost predicate Valid()
      reads this
    {
      && (modelLoaded <==> systemState != Booting)
      && (result.Some? <==> systemState == Done)
      && |logs| <= WINDOW
      && runs + |DATA_INICIAL| == |db|
      && db[runs..] == DATA_INICIAL
      && (forall i :: 0 <= i < runs ==> Scored(db[i]))
    }

    /** The component's initial state. */
    constructor ()
      ensures Valid()
      ensures !modelLoaded && systemState == Booting && logs == [] && result == None
      ensures db == DATA_INICIAL && inputs == INITIAL_INPUTS && runs == 0
    {
      modelLoaded := false;
      systemState := Booting;
      logs := [];
      db := DATA_INICIAL;
      inputs := INITIAL_INPUTS;
      runInputs := INITIAL_INPUTS;
      result := None;
      runs := 0;
    }

    /** `addLog`: keep the last three lines and append the message. */
    method AddLog(msg: string)
      modifies this`logs
      ensures logs == AppendLog(old(logs), msg)
      ensures |logs| <= WINDOW && logs[|logs| - 1] == "> " + msg
    {
      logs := LastN(logs, KEPT) + [Entry(msg)];
    }

    /** The mount effect's first step: announce the kernel. */
    method Mount()
      requires Valid()
      modifies this`logs
      ensures Valid()
      ensures logs == AppendLog(old(logs), BOOT_MSG)
    {
      AddLog(BOOT_MSG);
    }

    /** `boot`: load the model artifact, or fall back to an untrained dense
        unit when it is missing; either way a predictor is installed and the
        page is ready. */
    method Boot(artifactFound: bool)
      requires Valid() && systemState == Booting
      modifies this`modelLoaded, this`systemState, this`logs
      ensures Valid()
      ensures modelLoaded && systemState == Ready
      ensures logs == AppendLog(old(logs), if artifactFound then LOADED_MSG else FALLBACK_MSG)
    {
      if artifactFound {
        modelLoaded := true;
        systemState := Ready;
        AddLog(LOADED_MSG);
      } else {
        AddLog(FALLBACK_MSG);
        modelLoaded := true;
        systemState := Ready;
      }
    }

    /** A form handler: replace the form's values. */
    method SetInputs(next: Inputs)
      requires Valid()
      modifies this`inputs
      ensures Valid() && inputs == next
    {
      inputs := next;
    }

    /** `runDiagnostics` up to its simulated-latency `await`: nothing happens
        without a predictor; otherwise the run captures the form's values, the
        page enters processing, clears the result and logs the start. */
    method StartDiagnostics() returns (started: bool)
      requires Valid()
      modifies this`systemState, this`result, this`logs, this`runInputs
      ensures Valid()
      ensures started == modelLoaded
      ensures !started ==> systemState == old(systemState) && result == old(result) && logs == old(logs)
      ensures started ==> && runInputs == inputs
                          && systemState == Processing && result == None
                          && logs == AppendLog(old(logs), PROCESSING_MSG)
    {
      if !modelLoaded {
        return false;
      }
      runInputs := inputs;
      systemState := Processing;
      result := None;
      AddLog(PROCESSING_MSG);
      started := true;
    }

    /** `runDiagnostics` after the `await`: score the captured inputs, log the
        penalty when there is one, prepend the new record to the history and
        show the result. rawScore is the predictor's output (or the fallback's
        random value), idDraw the random draw behind the record id, fecha the
        date of the run. */
    method FinishDiagnostics(rawScore: real, idDraw: real, fecha: string)
      requires Valid() && systemState == Processing
      requires 0.0 <= idDraw < 1.0
      modifies this`systemState, this`result, this`logs, this`db, this`runs
      ensures Valid()
      ensures var d := Assess(JsRound(rawScore * 100.0), runInputs.enfermedad, runInputs.imc);
        && result == Some(d)
        && systemState == Done
        && db == [NewPatient(PatientId(idDraw), fecha, runInputs, d)] + old(db)
      ensures |db| == |old(db)| + 1 && db[1..] == old(db)
      ensures db[0].riesgo == result.value.score && db[0].nivel == result.value.level
      ensures logs == if Penalty(runInputs.enfermedad) > 0
                      then AppendLog(old(logs), PenaltyMessage(Penalty(runInputs.enfermedad)))
                      else old(logs)
    {
      var form := runInputs;
      var penalty, d := Score(rawScore, form.enfermedad, form.imc);
      if penalty > 0 {
        AddLog(PenaltyMessage(penalty));
      }
      var nuevo := NewPatient(PatientId(idDraw), fecha, form, d);
      NewPatientScored(PatientId(idDraw), fecha, form, JsRound(rawScore * 100.0));
      db := [nuevo] + db;
      runs := runs + 1;
      assert db[runs..] == old(db)[old(runs)..];
      result := Some(d);
      systemState := Done;
    }

    /** The whole of `runDiagnostics` as one step: without a predictor nothing
        changes; otherwise the run's messages are logged, its record heads the
        history and its diagnosis is the result. */
    method RunDiagnostics(rawScore: real, idDraw: real, fecha: string)
      requires Valid()
      requires 0.0 <= idDraw < 1.0
      modifies this`systemState, this`result, this`logs, this`db, this`runs, this`runInputs
      ensures Valid()
      ensures !old(modelLoaded) ==> systemState == old(systemState) && result == old(result) && logs == old(logs) && db == old(db)
      ensures old(modelLoaded) ==>
        var d := Assess(JsRound(rawScore * 100.0), inputs.enfermedad, inputs.imc);
        && result == Some(d)
        && systemState == Done
        && db == [NewPatient(PatientId(idDraw), fecha, inputs, d)] + old(db)
        && logs == AppendAll(old(logs), RunMessages(inputs.enfermedad))
    {
      var started := StartDiagnostics();
      if started {
        ghost var before := old(logs);
        FinishDiagnostics(rawScore, idDraw, fecha);
        var msgs := RunMessages(inputs.enfermedad);
        assert msgs[..1] == [PROCESSING_MSG];
        assert AppendAll(before, [PROCESSING_MSG]) == AppendLog(before, PROCESSING_MSG) by {
          assert [PROCESSING_MSG][..0] == [];
        }
      }
    }
  }

  /** On every history the dashboard can reach, the seed records included,
      the statistics view's critical count is the number of records whose risk
      exceeds 75. */
  lemma HistoryCriticalCases(page: VitalIA)
    requires page.Valid()
    ensures CriticalCases(page.db) == CountWhere(page.db, HighRisk)
  {
    forall i | 0 <= i < |page.db| ensures CriticalConsistent(page.db[i]) {
      if i >= page.runs {
        assert page.db[i] == DATA_INICIAL[i - page.runs];
      }
    }
    CriticalMeansHighRisk(page.db);
  }
}

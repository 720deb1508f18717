/** The triage scorer of `runDiagnostics`: a rounded base percentage from the
    predictor, a fixed penalty per comorbidity, a cap at 99, and an ordered
    classification whose first matching rule wins. */
module Scoring {

  // Comorbidity names offered by the form's selector.
  const NINGUNA: string := "Ninguna"
  const DIABETES_T2: string := "Diabetes T2"
  const HIPERTENSION: string := "Hipertensión"
  const ARRITMIA: string := "Arritmia Cardíaca"
  const OBESIDAD: string := "Obesidad"
  const ASMA: string := "Asma"

  /** The conditions that carry a penalty; every other string carries none. */
  const PENALISED: set<string> := {DIABETES_T2, HIPERTENSION, ARRITMIA, OBESIDAD, ASMA}

  // Risk levels. BAJO is only the placeholder the classification starts from.
  const BAJO: string := "BAJO"
  const MODERADO_CRONICO: string := "MODERADO (CRÓNICO)"
  const CRITICO: string := "CRÍTICO"
  const MODERADO: string := "MODERADO"
  const BAJO_PESO: string := "BAJO PESO"
  const SALUDABLE: string := "SALUDABLE"

  /** The levels a classification can end in. */
  const LEVELS: set<string> := {MODERADO_CRONICO, CRITICO, MODERADO, BAJO_PESO, SALUDABLE}

  // Recommendations.
  const REC_ESTABLE: string := "Paciente estable. Mantener hábitos."
  const REC_CRONICO: string := "Su condición pre-existente requiere monitoreo continuo."
  const REC_CRITICO: string := "🚨 ALTO RIESGO METABÓLICO. Intervención médica inmediata."
  const REC_MODERADO: string := "Precaución. Ajustar medicación y dieta."
  const REC_BAJO_PESO: string := "⚠️ ALERTA NUTRICIONAL: Desnutrición potencial."

  // Display colours.
  const GREEN: string := "#10b981"
  const AMBER: string := "#f59e0b"
  const RED: string := "#ef4444"
  const YELLOW: string := "#eab308"

  // Thresholds.
  const SCORE_CAP: int := 99
  const CHRONIC_FLOOR: int := 45
  const CRITICAL_ABOVE: int := 75
  const MODERATE_ABOVE: int := 45
  const UNDERWEIGHT_BMI: real := 18.5

  /** Colour and recommendation that go with each final level. */
  const LEVEL_COLOR: map<string, string> :=
    map[MODERADO_CRONICO := AMBER, CRITICO := RED, MODERADO := AMBER, BAJO_PESO := YELLOW, SALUDABLE := GREEN]
  const LEVEL_REC: map<string, string> :=
    map[MODERADO_CRONICO := REC_CRONICO, CRITICO := REC_CRITICO, MODERADO := REC_MODERADO,
        BAJO_PESO := REC_BAJO_PESO, SALUDABLE := REC_ESTABLE]

  /** What the result panel shows: score, level, recommendation and colour. */
  datatype Diagnosis = Diagnosis(score: int, level: string, recommendation: string, color: string)

  /** JavaScript's Math.round on a finite number: the nearest integer, halves
      rounded up. */
  function JsRound(x: real): (n: int)
    ensures x - 0.5 < n as real <= x + 0.5
  {
    (x + 0.5).Floor
  }

  /** The comorbidity penalty of the switch statement. */
  function Penalty(enfermedad: string): (p: int)
    ensures 0 <= p <= 40
    ensures p > 0 <==> enfermedad in PENALISED
  {
    match enfermedad
    case "Diabetes T2" => 35
    case "Hipertensión" => 30
    case "Arritmia Cardíaca" => 40
    case "Obesidad" => 20
    case "Asma" => 10
    case _ => 0
  }

  /** The percentage after the penalty and the cap, before classification:
      the smaller of base + penalty and 99. */
  function Capped(base: int, enfermedad: string): (c: int)
    ensures c <= SCORE_CAP && c <= base + Penalty(enfermedad)
    ensures c == SCORE_CAP || c == base + Penalty(enfermedad)
  {
    var raised := base + Penalty(enfermedad);
    if raised > SCORE_CAP then SCORE_CAP else raised
  }

  /** The whole scoring rule on a rounded base percentage. */
  function Assess(base: int, enfermedad: string, imc: real): (d: Diagnosis)
    // the score: capped at 99, raised only by the chronic floor, never lowered
    ensures d.score <= SCORE_CAP
    ensures d.score >= Capped(base, enfermedad)
    ensures enfermedad == NINGUNA ==> d.score == Capped(base, enfermedad)
    ensures enfermedad != NINGUNA ==> d.score >= CHRONIC_FLOOR
    // the chronic floor fires exactly when a comorbidity meets a capped score under 45
    ensures d.level == MODERADO_CRONICO <==> enfermedad != NINGUNA && Capped(base, enfermedad) < CHRONIC_FLOOR
    ensures d.level == MODERADO_CRONICO ==> d.score == CHRONIC_FLOOR
    ensures d.level != MODERADO_CRONICO ==> d.score == Capped(base, enfermedad)
    // the ordered levels
    ensures d.level == CRITICO <==> d.score > CRITICAL_ABOVE
    ensures d.level == MODERADO <==> MODERATE_ABOVE < d.score <= CRITICAL_ABOVE
    ensures d.level == BAJO_PESO <==> d.level != MODERADO_CRONICO && d.score <= MODERATE_ABOVE && imc < UNDERWEIGHT_BMI
    ensures d.level == SALUDABLE <==> d.level != MODERADO_CRONICO && d.score <= MODERATE_ABOVE && !(imc < UNDERWEIGHT_BMI)
    // a final level, never the placeholder, with its own colour and advice
    ensures d.level in LEVELS && d.level != BAJO
    ensures d.level in LEVEL_COLOR && d.color == LEVEL_COLOR[d.level]
    ensures d.level in LEVEL_REC && d.recommendation == LEVEL_REC[d.level]
  {
    var c := Capped(base, enfermedad);
    if enfermedad != NINGUNA && c < CHRONIC_FLOOR then Diagnosis(CHRONIC_FLOOR, MODERADO_CRONICO, REC_CRONICO, AMBER)
    else if c > CRITICAL_ABOVE then Diagnosis(c, CRITICO, REC_CRITICO, RED)
    else if c > MODERATE_ABOVE then Diagnosis(c, MODERADO, REC_MODERADO, AMBER)
    else if imc < UNDERWEIGHT_BMI then Diagnosis(c, BAJO_PESO, REC_BAJO_PESO, YELLOW)
    else Diagnosis(c, SALUDABLE, REC_ESTABLE, GREEN)
  }

  /** The scoring section of runDiagnostics, step by step on mutable locals:
      round the predictor output, add the penalty when there is one, cap,
      then classify. Returns the penalty too, which the caller logs. */
  method Score(rawScore: real, enfermedad: string, imc: real) returns (penalty: int, d: Diagnosis)
    ensures penalty == Penalty(enfermedad)
    ensures d == Assess(JsRound(rawScore * 100.0), enfermedad, imc)
  {
    var percentage := JsRound(rawScore * 100.0);
    penalty := Penalty(enfermedad);
    if penalty > 0 {
      percentage := percentage + penalty;
    }
    if percentage > SCORE_CAP {
      percentage := SCORE_CAP;
    }

    var level := BAJO;
    var rec := REC_ESTABLE;
    var color := GREEN;
    if enfermedad != NINGUNA && percentage < CHRONIC_FLOOR {
      percentage := CHRONIC_FLOOR;
      level := MODERADO_CRONICO;
      rec := REC_CRONICO;
      color := AMBER;
    } else if percentage > CRITICAL_ABOVE {
      level := CRITICO;
      rec := REC_CRITICO;
      color := RED;
    } else if percentage > MODERATE_ABOVE {
      level := MODERADO;
      rec := REC_MODERADO;
      color := AMBER;
    } else if imc < UNDERWEIGHT_BMI {
      level := BAJO_PESO;
      rec := REC_BAJO_PESO;
      color := YELLOW;
    } else {
      level := SALUDABLE;
    }
    d := Diagnosis(percentage, level, rec, color);
  }

  /** The exact penalty table; "Ninguna" and every unknown string give 0. */
  lemma PenaltyTable(enfermedad: string)
    ensures Penalty(DIABETES_T2) == 35 && Penalty(HIPERTENSION) == 30 && Penalty(ARRITMIA) == 40
    ensures Penalty(OBESIDAD) == 20 && Penalty(ASMA) == 10 && Penalty(NINGUNA) == 0
    ensures enfermedad !in PENALISED ==> Penalty(enfermedad) == 0
  {
  }

  /** A higher base percentage never gives a lower final score: the cap and
      the chronic floor are both monotone. */
  lemma ScoreMonotone(b1: int, b2: int, enfermedad: string, imc1: real, imc2: real)
    requires b1 <= b2
    ensures Assess(b1, enfermedad, imc1).score <= Assess(b2, enfermedad, imc2).score
  {
  }

  /** Without a comorbidity nothing clamps from below: a negative base stays
      negative. */
  lemma NoLowerClamp(base: int, imc: real)
    requires base < 0
    ensures Assess(base, NINGUNA, imc).score == base
  {
  }

  /** With a comorbidity and a capped score of exactly 45 neither the floor
      (strictly under 45) nor MODERADO (strictly over 45) fires, so the level is
      decided by BMI alone, and can be SALUDABLE. */
  lemma ChronicBoundary(base: int, enfermedad: string, imc: real)
    requires enfermedad != NINGUNA && Capped(base, enfermedad) == CHRONIC_FLOOR
    ensures Assess(base, enfermedad, imc).score == CHRONIC_FLOOR
    ensures Assess(base, enfermedad, imc).level == if imc < UNDERWEIGHT_BMI then BAJO_PESO else SALUDABLE
  {
  }

  /** Concrete runs: a zero base with asthma is floored to 45; asthma on a base
      of 35 lands on the boundary and is SALUDABLE; diabetes on a base of 50 is
      critical and one of 70 hits the cap. */
  lemma Examples()
    ensures Assess(0, ASMA, 20.0) == Diagnosis(45, MODERADO_CRONICO, REC_CRONICO, AMBER)
    ensures Assess(35, ASMA, 20.0) == Diagnosis(45, SALUDABLE, REC_ESTABLE, GREEN)
    ensures Assess(35, ASMA, 17.0).level == BAJO_PESO
    ensures Assess(50, DIABETES_T2, 31.0) == Diagnosis(85, CRITICO, REC_CRITICO, RED)
    ensures Assess(70, DIABETES_T2, 31.0).score == SCORE_CAP
    ensures Assess(0, NINGUNA, 24.0) == Diagnosis(0, SALUDABLE, REC_ESTABLE, GREEN)
  {
  }
}

/** The patient record kept in the in-memory history, the seed history the
    dashboard starts with, and how a scoring run builds a record. */
module Patients {
  import opened Scoring

  const MASCULINO: string := "Masculino"
  const FEMENINO: string := "Femenino"

  /** The form's fields; the four biomarkers are taken as already-parsed numbers. */
  datatype Inputs = Inputs(edad: real, glucosa: real, imc: real, presion: real, genero: string, enfermedad: string)

  /** The form as the page first shows it: male, no comorbidity. */
  const INITIAL_INPUTS: Inputs := Inputs(0.0, 0.0, 0.0, 0.0, MASCULINO, NINGUNA)

  /** One row of the patient history. */
  datatype Paciente = Paciente(
    id: string, fecha: string,
    edad: real, genero: string, enfermedad: string,
    glucosa: real, imc: real, presion: real,
    riesgo: int, nivel: string)

  /** The five seed records, most recent first. */
  const DATA_INICIAL: seq<Paciente> := [
    Paciente("PT-1001", "08/12/2025", 45.0, MASCULINO, NINGUNA, 90.0, 24.0, 120.0, 15, SALUDABLE),
    Paciente("PT-1002", "08/12/2025", 62.0, FEMENINO, DIABETES_T2, 180.0, 31.0, 150.0, 95, CRITICO),
    Paciente("PT-1003", "07/12/2025", 35.0, MASCULINO, HIPERTENSION, 110.0, 28.0, 140.0, 65, MODERADO),
    Paciente("PT-1004", "06/12/2025", 28.0, FEMENINO, ASMA, 85.0, 20.0, 110.0, 12, SALUDABLE),
    Paciente("PT-1005", "05/12/2025", 55.0, MASCULINO, OBESIDAD, 130.0, 36.0, 135.0, 58, MODERADO)
  ]

  /** The form values a record was built from. */
  function InputsOf(p: Paciente): Inputs {
    Inputs(p.edad, p.glucosa, p.imc, p.presion, p.genero, p.enfermedad)
  }

  /** The record a run stores: the inputs copied, the diagnosis's score and level. */
  function NewPatient(id: string, fecha: string, inputs: Inputs, d: Diagnosis): (p: Paciente)
    ensures InputsOf(p) == inputs
    ensures p.id == id && p.fecha == fecha && p.riesgo == d.score && p.nivel == d.level
  {
    Paciente(id, fecha, inputs.edad, inputs.genero, inputs.enfermedad,
             inputs.glucosa, inputs.imc, inputs.presion, d.score, d.level)
  }

  /** What every record built from a scoring run satisfies. */
  ghost predicate Scored(p: Paciente) {
    && p.riesgo <= SCORE_CAP
    && p.nivel in LEVELS
    && (p.enfermedad != NINGUNA ==> p.riesgo >= CHRONIC_FLOOR)
    && (p.nivel == CRITICO <==> p.riesgo > CRITICAL_ABOVE)
    && (p.nivel == MODERADO ==> MODERATE_ABOVE < p.riesgo <= CRITICAL_ABOVE)
    && (p.nivel == MODERADO_CRONICO ==> p.riesgo == CHRONIC_FLOOR && p.enfermedad != NINGUNA)
    && (p.nivel == BAJO_PESO ==> p.riesgo <= MODERATE_ABOVE && p.imc < UNDERWEIGHT_BMI)
    && (p.nivel == SALUDABLE ==> p.riesgo <= MODERATE_ABOVE && !(p.imc < UNDERWEIGHT_BMI))
  }

  /** A record built from the scorer's diagnosis of its own inputs is Scored,
      and carries the computed score and level. */
  lemma NewPatientScored(id: string, fecha: string, inputs: Inputs, base: int)
    ensures var p := NewPatient(id, fecha, inputs, Assess(base, inputs.enfermedad, inputs.imc));
      Scored(p) && p.riesgo == Assess(base, inputs.enfermedad, inputs.imc).score
  {
  }

  /** Record p carries the score and level the scorer gives its own condition
      and BMI on a base percentage of base. */
  predicate ProducedBy(p: Paciente, base: int) {
    var d := Assess(base, p.enfermedad, p.imc);
    p.riesgo == d.score && p.nivel == d.level
  }

  /** The seed record PT-1004 (asthma, risk 12, SALUDABLE) is not one the
      scorer can produce on any base: asthma always scores at least 45. The
      other four are, on the bases 15, 60, 35 and 38. */
  lemma SeedRecords()
    ensures !Scored(DATA_INICIAL[3])
    ensures forall base :: !ProducedBy(DATA_INICIAL[3], base)
    ensures ProducedBy(DATA_INICIAL[0], 15) && ProducedBy(DATA_INICIAL[1], 60)
    ensures ProducedBy(DATA_INICIAL[2], 35) && ProducedBy(DATA_INICIAL[4], 38)
    ensures Scored(DATA_INICIAL[0]) && Scored(DATA_INICIAL[1]) && Scored(DATA_INICIAL[2]) && Scored(DATA_INICIAL[4])
  {
    forall base: int ensures !ProducedBy(DATA_INICIAL[3], base) {
      assert Assess(base, ASMA, 20.0).score >= CHRONIC_FLOOR;
    }
  }
}

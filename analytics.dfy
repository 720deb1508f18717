/** The statistics view's aggregates, computed on the fly from the patient
    history: gender counts, per-comorbidity counts in first-seen order, BMI
    buckets and the number of critical cases. */
module Analytics {
  import opened Scoring
  import opened Patients

  /** One bar or pie slice: a label and a count. */
  datatype ChartPoint = ChartPoint(name: string, value: nat)

  /** `db.filter(keep).length` */
  function CountWhere(db: seq<Paciente>, keep: Paciente -> bool): (n: nat)
    ensures n <= |db|
    ensures n == |db| <==> forall i :: 0 <= i < |db| ==> keep(db[i])
    ensures n == 0 <==> forall i :: 0 <= i < |db| ==> !keep(db[i])
  {
    if db == [] then 0
    else
      var rest := CountWhere(db[1..], keep);
      assert forall i :: 1 <= i < |db| ==> db[i] == db[1..][i - 1];
      (if keep(db[0]) then 1 else 0) + rest
  }

  /** Two filters that never both hold count, together, what their union counts. */
  lemma {:induction false} CountDisjoint(db: seq<Paciente>, p: Paciente -> bool, q: Paciente -> bool, both: Paciente -> bool)
    requires forall x | x in db :: both(x) == (p(x) || q(x)) && !(p(x) && q(x))
    ensures CountWhere(db, p) + CountWhere(db, q) == CountWhere(db, both)
  {
    if db != [] {
      assert forall x | x in db[1..] :: x in db;
      CountDisjoint(db[1..], p, q, both);
    }
  }

  /** Two filters that agree on every record count the same. */
  lemma {:induction false} CountAgree(db: seq<Paciente>, p: Paciente -> bool, q: Paciente -> bool)
    requires forall x | x in db :: p(x) == q(x)
    ensures CountWhere(db, p) == CountWhere(db, q)
  {
    if db != [] {
      assert forall x | x in db[1..] :: x in db;
      CountAgree(db[1..], p, q);
    }
  }

  // ---- Gender ----

  predicate IsMale(p: Paciente) { p.genero == MASCULINO }
  predicate IsFemale(p: Paciente) { p.genero == FEMENINO }
  predicate KnownGender(p: Paciente) { p.genero == MASCULINO || p.genero == FEMENINO }

  /** `getGenderData`: men and women, never more than the history holds, and
      exactly all of it when every record is one or the other. */
  function GenderData(db: seq<Paciente>): (r: seq<ChartPoint>)
    ensures |r| == 2 && r[0].name == "Hombres" && r[1].name == "Mujeres"
    ensures r[0].value + r[1].value <= |db|
    ensures r[0].value + r[1].value == |db| <==> forall i :: 0 <= i < |db| ==> KnownGender(db[i])
  {
    CountDisjoint(db, IsMale, IsFemale, KnownGender);
    [ChartPoint("Hombres", CountWhere(db, IsMale)), ChartPoint("Mujeres", CountWhere(db, IsFemale))]
  }

  // ---- BMI buckets ----

  predicate Underweight(p: Paciente) { p.imc < 18.5 }
  predicate NormalWeight(p: Paciente) { p.imc >= 18.5 && p.imc < 25.0 }
  predicate Overweight(p: Paciente) { p.imc >= 25.0 && p.imc < 30.0 }
  predicate Obese(p: Paciente) { p.imc >= 30.0 }
  predicate Below25(p: Paciente) { p.imc < 25.0 }
  predicate From25(p: Paciente) { p.imc >= 25.0 }
  predicate AnyRecord(p: Paciente) { true }

  /** `getIMCDistribution`: the four buckets split at 18.5, 25 and 30. Every
      record falls in exactly one, so the counts add up to the history. */
  function ImcDistribution(db: seq<Paciente>): (r: seq<ChartPoint>)
    ensures |r| == 4
    ensures r[0].name == "Bajo Peso" && r[1].name == "Normal" && r[2].name == "Sobrepeso" && r[3].name == "Obesidad"
    ensures r[0].value + r[1].value + r[2].value + r[3].value == |db|
  {
    CountDisjoint(db, Underweight, NormalWeight, Below25);
    CountDisjoint(db, Overweight, Obese, From25);
    CountDisjoint(db, Below25, From25, AnyRecord);
    [ ChartPoint("Bajo Peso", CountWhere(db, Underweight)),
      ChartPoint("Normal", CountWhere(db, NormalWeight)),
      ChartPoint("Sobrepeso", CountWhere(db, Overweight)),
      ChartPoint("Obesidad", CountWhere(db, Obese)) ]
  }

  function OneIf(b: bool): nat { if b then 1 else 0 }

  /** The bucket filters are disjoint and cover every BMI value. */
  lemma ImcBucketsPartition(p: Paciente)
    ensures OneIf(Underweight(p)) + OneIf(NormalWeight(p)) + OneIf(Overweight(p)) + OneIf(Obese(p)) == 1
  {
  }

  // ---- Critical cases ----

  predicate IsCritical(p: Paciente) { p.nivel == CRITICO }
  predicate HighRisk(p: Paciente) { p.riesgo > CRITICAL_ABOVE }

  /** `criticalCases`: the records labelled CRÍTICO. */
  function CriticalCases(db: seq<Paciente>): (n: nat)
    ensures n <= |db|
    ensures n == 0 <==> forall i :: 0 <= i < |db| ==> db[i].nivel != CRITICO
  {
    CountWhere(db, IsCritical)
  }

  /** A record labelled CRÍTICO exactly when its risk exceeds 75: every
      scored record, and every seed record, is one. */
  predicate CriticalConsistent(p: Paciente) {
    p.nivel == CRITICO <==> p.riesgo > CRITICAL_ABOVE
  }

  /** On a history whose records are labelled consistently the critical cases
      are exactly the records whose risk exceeds 75. */
  lemma {:induction false} CriticalMeansHighRisk(db: seq<Paciente>)
    requires forall i :: 0 <= i < |db| ==> CriticalConsistent(db[i])
    ensures CriticalCases(db) == CountWhere(db, HighRisk)
  {
    CountAgree(db, IsCritical, HighRisk);
  }

  // ---- Comorbidities ----

  /** How many records carry condition k: `counts[k]` once the loop is done. */
  function ConditionCount(db: seq<Paciente>, k: string): nat {
    if db == [] then 0
    else ConditionCount(db[..|db| - 1], k) + (if db[|db| - 1].enfermedad == k then 1 else 0)
  }

  /** The conditions in the order the loop first meets them. */
  function FirstSeen(db: seq<Paciente>): seq<string> {
    if db == [] then []
    else
      var keys, k := FirstSeen(db[..|db| - 1]), db[|db| - 1].enfermedad;
      if k in keys then keys else keys + [k]
  }

  ghost predicate Distinct(keys: seq<string>) {
    forall i, j :: 0 <= i < j < |keys| ==> keys[i] != keys[j]
  }

  /** The first-seen keys are distinct, and they are exactly the conditions
      with a positive count. */
  lemma {:induction false} FirstSeenKeys(db: seq<Paciente>)
    ensures Distinct(FirstSeen(db))
    ensures forall k :: k in FirstSeen(db) <==> ConditionCount(db, k) > 0
  {
    if db != [] {
      FirstSeenKeys(db[..|db| - 1]);
    }
  }

  /** Every record's condition is among the first-seen keys. */
  lemma {:induction false} FirstSeenCovers(db: seq<Paciente>)
    ensures forall i :: 0 <= i < |db| ==> db[i].enfermedad in FirstSeen(db)
  {
    if db != [] {
      var front := db[..|db| - 1];
      FirstSeenCovers(front);
      assert forall i :: 0 <= i < |front| ==> db[i] == front[i];
    }
  }

  /** The chart rows for a list of keys. */
  function Chart(keys: seq<string>, db: seq<Paciente>): (r: seq<ChartPoint>)
    ensures |r| == |keys|
  {
    seq(|keys|, j requires 0 <= j < |keys| => ChartPoint(keys[j], ConditionCount(db, keys[j])))
  }

  /** The labels of a chart, in order. */
  function Names(data: seq<ChartPoint>): (r: seq<string>)
    ensures |r| == |data|
  {
    seq(|data|, j requires 0 <= j < |data| => data[j].name)
  }

  /** The sum of the counts shown in a chart. */
  function SumValues(data: seq<ChartPoint>): nat {
    if data == [] then 0 else SumValues(data[..|data| - 1]) + data[|data| - 1].value
  }

  /** Adding one record raises the sum over distinct keys by one exactly when
      its condition is among them. */
  lemma {:induction false} ChartStep(keys: seq<string>, db: seq<Paciente>, x: Paciente)
    requires Distinct(keys)
    ensures SumValues(Chart(keys, db + [x])) == SumValues(Chart(keys, db)) + (if x.enfermedad in keys then 1 else 0)
  {
    if keys != [] {
      var front := keys[..|keys| - 1];
      ChartStep(front, db, x);
      assert Chart(keys, db + [x])[..|front|] == Chart(front, db + [x]);
      assert Chart(keys, db)[..|front|] == Chart(front, db);
      assert (db + [x])[..|db|] == db;
      assert x.enfermedad in keys <==> x.enfermedad in front || x.enfermedad == keys[|front|];
    }
  }

  /** Appending a key appends its row. */
  lemma ChartAppend(keys: seq<string>, k: string, db: seq<Paciente>)
    ensures SumValues(Chart(keys + [k], db)) == SumValues(Chart(keys, db)) + ConditionCount(db, k)
  {
    assert Chart(keys + [k], db)[..|keys|] == Chart(keys, db);
  }

  /** The per-comorbidity counts add up to the length of the history. */
  lemma {:induction false} ComorbidityTotal(db: seq<Paciente>)
    ensures SumValues(Chart(FirstSeen(db), db)) == |db|
  {
    if db != [] {
      var front, x := db[..|db| - 1], db[|db| - 1];
      assert db == front + [x];
      var keys := FirstSeen(front);
      ComorbidityTotal(front);
      FirstSeenKeys(front);
      ChartStep(keys, front, x);
      if x.enfermedad !in keys {
        ChartAppend(keys, x.enfermedad, db);
        assert ConditionCount(front, x.enfermedad) == 0;
      }
    }
  }

  /** `getComorbidityData`: one loop over the history fills a dictionary of
      counts, a missing key starting from zero, and the chart lists its keys
      in the order they were first inserted, each with its count. */
  method ComorbidityData(db: seq<Paciente>) returns (data: seq<ChartPoint>)
    ensures data == Chart(FirstSeen(db), db)
  {
    var counts: map<string, nat> := map[];
    var keys: seq<string> := [];
    var i := 0;
    while i < |db|
      invariant 0 <= i <= |db|
      invariant keys == FirstSeen(db[..i])
      invariant forall k :: k in counts <==> k in keys
      invariant forall k :: k in counts ==> counts[k] == ConditionCount(db[..i], k)
    {
      var k := db[i].enfermedad;
      assert db[..i + 1][..i] == db[..i];
      FirstSeenKeys(db[..i]);
      assert forall c :: ConditionCount(db[..i + 1], c) == ConditionCount(db[..i], c) + (if c == k then 1 else 0);
      if k !in counts {
        keys := keys + [k];
      }
      counts := counts[k := (if k in counts then counts[k] else 0) + 1];
      i := i + 1;
    }
    assert db[..|db|] == db;
    data := seq(|keys|, j requires 0 <= j < |keys| => ChartPoint(keys[j], counts[keys[j]]));
  }

  /** The comorbidity chart lists each condition once, each with at least one
      record; every record's condition is listed; and the counts add up to the
      length of the history. */
  lemma ComorbidityChart(db: seq<Paciente>)
    ensures var data := Chart(FirstSeen(db), db);
      && (forall i, j :: 0 <= i < j < |data| ==> data[i].name != data[j].name)
      && (forall j :: 0 <= j < |data| ==> data[j].value >= 1)
      && (forall i :: 0 <= i < |db| ==> db[i].enfermedad in Names(data))
      && SumValues(data) == |db|
  {
    var data := Chart(FirstSeen(db), db);
    FirstSeenKeys(db);
    FirstSeenCovers(db);
    ComorbidityTotal(db);
    assert Names(data) == FirstSeen(db);
  }
}

/** Unit conversion applied to the elastic modulus before any formula uses it. */
module Units {

  /** kN/m² in one GPa. */
  const KnPerM2PerGpa: real := 1e6

  /** The modulus entered in GPa, in kN/m². */
  function GpaToKnPerM2(eGpa: real): (e: real)
    ensures e / KnPerM2PerGpa == eGpa
    ensures e == 0.0 <==> eGpa == 0.0
    ensures e > 0.0 <==> eGpa > 0.0
  {
    eGpa * KnPerM2PerGpa
  }
}

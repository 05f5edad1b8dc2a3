/** Data model of the three-pulse extended phase graph: one record per
    coherence pathway segment, the trigonometric factors of one pulse, and the
    fixed timing of the sequence. */
module Model {

  /** One coherence pathway during one inter-pulse window. The phase
      coordinate moves linearly from `startPhase` to `endPhase` while time
      runs from `startTime` to `endTime`. `echoTime` is 0.0 when the pathway
      carries no echo. The amplitude is real: every amplitude the diagram
      produces is a product of sines and cosines. */
  datatype Segment = Segment(
    startPhase: real,
    endPhase: real,
    startTime: real,
    endTime: real,
    amplitude: real,
    isLongitudinal: bool,
    echoTime: real)

  /** The trigonometric factors of one pulse of flip angle a:
      sin a, cos a, cos²(a/2) and sin²(a/2). They are kept abstract so that no
      floating-point evaluation of sine or cosine enters the model. */
  datatype Rotation = Rotation(sin: real, cos: real, cosHalfSq: real, sinHalfSq: real)
  {
    /** Each factor lies in the range a sine, cosine or squared half-angle
        sine/cosine can take. */
    predicate Bounded() {
      && -1.0 <= sin <= 1.0
      && -1.0 <= cos <= 1.0
      && 0.0 <= cosHalfSq <= 1.0
      && 0.0 <= sinHalfSq <= 1.0
    }

    /** The trigonometric identities that tie the four factors of one angle
        together: sin² + cos² = 1, cos²(a/2) + sin²(a/2) = 1,
        cos a = cos²(a/2) − sin²(a/2) and sin² a = 4 cos²(a/2) sin²(a/2). */
    predicate Consistent() {
      && Bounded()
      && sin * sin + cos * cos == 1.0
      && cosHalfSq + sinHalfSq == 1.0
      && cosHalfSq - sinHalfSq == cos
      && sin * sin == 4.0 * cosHalfSq * sinHalfSq
    }
  }

  /** The factors of a zero flip angle: the pulse does nothing. */
  const NoRotation: Rotation := Rotation(0.0, 1.0, 1.0, 0.0)

  /** Time between the first and second pulse. */
  const Tau12: real := 1.0

  /** Total observation horizon. */
  const Horizon: real := 7.0

  /** Time between the second and third pulse: tfrac times Tau12, which is
      tfrac itself because Tau12 is one time unit. */
  function Tau23(tfrac: real): real {
    tfrac
  }

  /** Time from the third pulse to the end of the observation. */
  function TauPost(tfrac: real): real {
    Horizon - Tau12 - Tau23(tfrac)
  }

  /** Both later windows have positive length. The timing slider
      (0.5 to 2.5) always satisfies this. */
  predicate WellTimed(tfrac: real) {
    Tau23(tfrac) > 0.0 && TauPost(tfrac) > 0.0
  }

  function Abs(x: real): real {
    if x < 0.0 then -x else x
  }
}

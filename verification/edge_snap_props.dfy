/**
 Properties of the edge-snap pre-correction.
 */
module EdgeSnapProps {
  import opened FastAnalogRead

  /** Edge snap never reorders two samples: it is strictly increasing, whatever the configuration. */
  lemma EdgeSnapStrictlyMonotone(cfg: Config, a: real, b: real)
    requires a < b
    ensures EdgeSnap(cfg, a) < EdgeSnap(cfg, b)
  {
  }

  /** A sample is left as it is exactly when edge snap is off or the sample lies between the two edge bands. */
  lemma EdgeSnapFixedPoints(cfg: Config, v: real)
    ensures EdgeSnap(cfg, v) == v
        <==> !EdgeSnapActive(cfg) || cfg.activityThreshold <= v <= UpperEdge(cfg)
  {
  }

  /**
   Inside an edge band the correction pushes the sample further toward that
   rail: down near zero, up near the resolution.
   */
  lemma EdgeSnapExaggerates(cfg: Config, v: real)
    requires EdgeSnapActive(cfg)
    ensures v < cfg.activityThreshold ==> EdgeSnap(cfg, v) < v
    ensures cfg.activityThreshold <= v && v > UpperEdge(cfg) ==> EdgeSnap(cfg, v) > v
  {
  }

  /**
   With threshold 4 and resolution 1024 a sample of 2 becomes 0 and a sample
   of 1022 becomes 1024.
   */
  lemma EdgeSnapExamples(cfg: Config)
    requires EdgeSnapActive(cfg)
    requires cfg.activityThreshold == 4.0 && cfg.analogResolution == 1024
    ensures EdgeSnap(cfg, 2.0) == 0.0
    ensures EdgeSnap(cfg, 1022.0) == 1024.0
    ensures EdgeSnap(cfg, 512.0) == 512.0
  {
  }
}

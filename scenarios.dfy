/** Worked examples, checked by the verifier against the class's contracts: which band
    a few distances fall in, one drag of Terrum, and the effect of repeated key presses. */
module Scenarios {
  import opened Orbits
  import opened HitTest
  import opened Interaction
  import opened Simulation

  method WorkedExamples()
  {
    assert Classify(0.8) == Some(Alles);
    assert Classify(1.8) == Some(Terrum);
    assert Classify(0.3) == None;
    assert Classify(4.4) == None;
    assert Classify(4.2) == Some(Sola);

    var solar := new Solar();
    solar.OnButtonDown(1.8, 0.5);
    assert solar.dragPlanet == Terrum;
    solar.OnMotion(1.2);
    assert solar.phase[Index(Terrum)] == 0.7;
    solar.OnButtonUp();

    solar.OnKey(Plus);
    solar.OnKey(Plus);
    solar.OnKey(Plus);
    solar.OnKey(Plus);
    solar.OnKey(Plus);
    assert solar.timeStep == 0.120;

    var before := solar.currentTime;
    solar.OnKey(Space);
    solar.OnKey(Space);
    assert solar.currentTime == before + 0.040;
  }
}

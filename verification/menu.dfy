/**
 The rotary-encoder menu of Menu.h. Each call samples the encoder's CLK, DT
 and push-button (SW) pins. A change of CLK since the previous call is one
 detent: the encoder value moves up when DT differs from CLK and down when it
 equals CLK. A pressed button (SW LOW) advances the menu through 0, 1, 2, 3, 4
 and back to 0; a menu value outside 0..4 matches no case and stays. The
 beep on a detent and the 200 ms debounce pause are not modelled.
 */
module Menu {
  import opened Hardware

  /** The three globals of the menu. */
  datatype MenuVars = MenuVars(menuState: int, encoderValue: int, lastEncoderValue: int)

  const Initial: MenuVars := MenuVars(0, 0, 0)

  /** One call's pin samples: `digitalRead` of CLK, DT and SW. */
  datatype Sample = Sample(clk: PinLevel, dt: PinLevel, sw: PinLevel)

  /** The `switch (menuState)` on a button press. */
  function NextMenuState(m: int): int {
    match m
    case 0 => 1
    case 1 => 2
    case 2 => 3
    case 3 => 4
    case 4 => 0
    case _ => m
  }

  /** `handleMenu` with its pin reads as inputs. */
  function HandleMenu(m: MenuVars, x: Sample): (r: MenuVars)
    ensures r.lastEncoderValue == x.clk
    ensures x.clk == m.lastEncoderValue ==> r.encoderValue == m.encoderValue
    ensures x.clk != m.lastEncoderValue && x.dt != x.clk ==> r.encoderValue == m.encoderValue + 1
    ensures x.clk != m.lastEncoderValue && x.dt == x.clk ==> r.encoderValue == m.encoderValue - 1
    ensures x.sw == LOW && 0 <= m.menuState <= 4 ==> r.menuState == (m.menuState + 1) % 5
    ensures x.sw != LOW || m.menuState < 0 || m.menuState > 4 ==> r.menuState == m.menuState
  {
    var encoderValue :=
      if x.clk != m.lastEncoderValue then
        if x.dt != x.clk then m.encoderValue + 1 else m.encoderValue - 1
      else m.encoderValue;
    var menuState := if x.sw == LOW then NextMenuState(m.menuState) else m.menuState;
    MenuVars(menuState, encoderValue, x.clk)
  }

  /** Successive calls of `handleMenu`, one per sample. */
  function RunMenu(m: MenuVars, xs: seq<Sample>): MenuVars
    decreases |xs|
  {
    if xs == [] then m else RunMenu(HandleMenu(m, xs[0]), xs[1..])
  }

  /** Pressing the button on every one of k calls, from a menu state in 0..4, lands
      on (state + k) mod 5, whatever the encoder does meanwhile. */
  lemma {:induction false} PressesCycle(m: MenuVars, xs: seq<Sample>)
    requires 0 <= m.menuState <= 4
    requires forall j :: 0 <= j < |xs| ==> xs[j].sw == LOW
    ensures RunMenu(m, xs).menuState == (m.menuState + |xs|) % 5
    decreases |xs|
  {
    if xs != [] {
      var next := HandleMenu(m, xs[0]);
      assert next.menuState == (m.menuState + 1) % 5;
      forall j | 0 <= j < |xs[1..]|
        ensures xs[1..][j].sw == LOW
      {
        assert xs[1..][j] == xs[j + 1];
      }
      PressesCycle(next, xs[1..]);
    }
  }

  /** Five presses bring the menu back to where it started. */
  lemma FivePressesReturn(m: MenuVars, xs: seq<Sample>)
    requires 0 <= m.menuState <= 4
    requires |xs| == 5 && forall j :: 0 <= j < 5 ==> xs[j].sw == LOW
    ensures RunMenu(m, xs).menuState == m.menuState
  {
    PressesCycle(m, xs);
  }

  /** Started in 0..4 (as the initial state is), the menu state stays in 0..4; the last
      CLK level is remembered, and the encoder moves by at most one per call. */
  lemma {:induction false} RunMenuInvariants(m: MenuVars, xs: seq<Sample>)
    requires 0 <= m.menuState <= 4
    ensures 0 <= RunMenu(m, xs).menuState <= 4
    ensures xs != [] ==> RunMenu(m, xs).lastEncoderValue == xs[|xs| - 1].clk
    ensures m.encoderValue - |xs| <= RunMenu(m, xs).encoderValue <= m.encoderValue + |xs|
    decreases |xs|
  {
    if xs != [] {
      var next := HandleMenu(m, xs[0]);
      RunMenuInvariants(next, xs[1..]);
      if xs[1..] != [] {
        assert xs[1..][|xs[1..]| - 1] == xs[|xs| - 1];
      }
    }
  }

  /** From power-on (menu 0, encoder 0, last CLK 0) the menu state never leaves 0..4. */
  lemma MenuFromInitial(xs: seq<Sample>)
    ensures Initial.menuState == 0 && Initial.encoderValue == 0 && Initial.lastEncoderValue == 0
    ensures 0 <= RunMenu(Initial, xs).menuState <= 4
    ensures -|xs| <= RunMenu(Initial, xs).encoderValue <= |xs|
  {
    RunMenuInvariants(Initial, xs);
  }
}

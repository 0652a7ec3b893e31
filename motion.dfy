/** The velocity resolver: from a set of intents to an optional velocity. */
module Motion {
  import opened Wrappers
  import opened Commands

  /** Distance per second contributed by each held direction. */
  const Speed: int := 100

  /**
   * The Velocity component.  Every component is a sum of +-100 starting
   * from 0, so it is exact in single precision and modelled as an int.
   */
  datatype Velocity = Velocity(x: int, y: int)

  /**
   * The velocity accumulated by the "CharacterCommand" system: starting from
   * (0, 0), Up subtracts Speed from y, Left subtracts it from x, Down adds it
   * to y and Right adds it to x, in that order.
   */
  function NetVelocity(cmds: set<CommandType>): (v: Velocity)
    ensures v.y == -Speed <==> MoveUp in cmds && MoveDown !in cmds
    ensures v.y == Speed <==> MoveDown in cmds && MoveUp !in cmds
    ensures v.y == 0 <==> (MoveUp in cmds <==> MoveDown in cmds)
    ensures v.x == -Speed <==> MoveLeft in cmds && MoveRight !in cmds
    ensures v.x == Speed <==> MoveRight in cmds && MoveLeft !in cmds
    ensures v.x == 0 <==> (MoveLeft in cmds <==> MoveRight in cmds)
    ensures v.x in {-Speed, 0, Speed} && v.y in {-Speed, 0, Speed}
  {
    var v0 := Velocity(0, 0);
    var v1 := if MoveUp in cmds then v0.(y := v0.y - Speed) else v0;
    var v2 := if MoveLeft in cmds then v1.(x := v1.x - Speed) else v1;
    var v3 := if MoveDown in cmds then v2.(y := v2.y + Speed) else v2;
    if MoveRight in cmds then v3.(x := v3.x + Speed) else v3
  }

  /**
   * What the resolver leaves on the entity: no Velocity when the net
   * velocity is exactly (0, 0), otherwise exactly the net velocity.
   */
  function ResolveVelocity(cmds: set<CommandType>): (r: Option<Velocity>)
    ensures r.None? <==> (MoveUp in cmds <==> MoveDown in cmds) && (MoveLeft in cmds <==> MoveRight in cmds)
    ensures r.Some? ==> r.value != Velocity(0, 0)
    ensures r.Some? ==> r.value == NetVelocity(cmds)
  {
    var v := NetVelocity(cmds);
    if v.x == 0 && v.y == 0 then None else Some(v)
  }
}

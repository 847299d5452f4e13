/**
 * The game whose level and health can be saved to a state object and
 * loaded back (a second Memento example).
 */
module GamePattern {

  import opened Text

  /** A saved level and health. */
  datatype GameState = GameState(level: int, health: int)

  function StatusLine(level: int, health: int): string {
    "Level: " + IntToString(level) + ", Health: " + IntToString(health)
  }

  class Game {
    var level: int
    var health: int

    /** A new game is at level 1 with health 100. */
    constructor ()
      ensures level == 1 && health == 100
    {
      level := 1;
      health := 100;
    }

    /** One round: the level goes up by one, health down by ten; prints the new status. */
    method Play() returns (line: string)
      modifies this
      ensures level == old(level) + 1 && health == old(health) - 10
      ensures line == StatusLine(level, health)
    {
      level := level + 1;
      health := health - 10;
      line := StatusLine(level, health);
    }

    /** A state object holding the current level and health; the game is untouched. */
    method SaveState() returns (s: GameState)
      ensures s.level == level && s.health == health
    {
      s := GameState(level, health);
    }

    /** Sets level and health from a state object. */
    method LoadState(s: GameState)
      modifies this
      ensures level == s.level && health == s.health
    {
      level := s.level;
      health := s.health;
    }
  }

  /** Loading a state saved before a round undoes that round. */
  method SavePlayLoad(g: Game) returns (s: GameState)
    modifies g
    ensures s == GameState(old(g.level), old(g.health))
    ensures g.level == old(g.level) && g.health == old(g.health)
  {
    s := g.SaveState();
    var _ := g.Play();
    g.LoadState(s);
  }

  /** The demo run: play, save, play, load; the game ends at level 2 with health 90. */
  method Demo() returns (lines: seq<string>)
    ensures lines == [StatusLine(2, 90), StatusLine(3, 80), "After loading saved state:", StatusLine(2, 90)]
  {
    var game := new Game();
    var l1 := game.Play();
    var saved := game.SaveState();
    var l2 := game.Play();
    game.LoadState(saved);
    lines := [l1, l2, "After loading saved state:", StatusLine(game.level, game.health)];
  }
}

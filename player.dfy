/** The persisted player record (`src/entities/player.rs`). */
module Players {

  /** Rust's `u32`. */
  newtype U32 = x: int | 0 <= x < 0x1_0000_0000

  class Player {
    var exp: U32
    var revive: U32
    var highscore: U32

    /** `Player::new`: stores the three values as given. */
    constructor (exp: U32, revive: U32, highscore: U32)
      ensures Exp() == exp && Revive() == revive && Highscore() == highscore
    {
      this.exp := exp;
      this.revive := revive;
      this.highscore := highscore;
    }

    /** `set_exp`: changes the experience and nothing else. */
    method SetExp(value: U32)
      modifies this
      ensures Exp() == value
      ensures Revive() == old(Revive()) && Highscore() == old(Highscore())
    {
      exp := value;
    }

    /** `set_revive`: changes the revive count and nothing else. */
    method SetRevive(value: U32)
      modifies this
      ensures Revive() == value
      ensures Exp() == old(Exp()) && Highscore() == old(Highscore())
    {
      revive := value;
    }

    /** `set_highscore`: changes the high score and nothing else. */
    method SetHighscore(value: U32)
      modifies this
      ensures Highscore() == value
      ensures Exp() == old(Exp()) && Revive() == old(Revive())
    {
      highscore := value;
    }

    function Exp(): U32
      reads this
    {
      exp
    }

    function Revive(): U32
      reads this
    {
      revive
    }

    function Highscore(): U32
      reads this
    {
      highscore
    }
  }
}

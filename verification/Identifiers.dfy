/** Where `uuid4()` values come from: every identifier it returns is new. */
module Identifiers {
  import opened Prelude

  class IdSource {
    ghost var used: set<Id>
    var next: Id

    ghost predicate Valid()
      reads this
    {
      forall id :: id in used ==> id < next
    }

    constructor ()
      ensures Valid() && used == {}
    {
      used, next := {}, 0;
    }

    method Generate() returns (id: Id)
      requires Valid()
      modifies this
      ensures Valid() && id !in old(used) && used == old(used) + {id}
    {
      id := next;
      used, next := used + {id}, next + 1;
    }
  }
}

/** The tokens that one claim gives to its rows. */
module Tokens {
  import opened Prelude

  /** Each id has its own token, and all the tokens are new. */
  ghost predicate FreshTokens(tokens: map<Id, Id>, used: set<Id>) {
    && (forall a, b :: a in tokens && b in tokens && tokens[a] == tokens[b] ==> a == b)
    && (forall a :: a in tokens ==> tokens[a] !in used)
  }

  lemma FreshTokensOneMore(tokens: map<Id, Id>, used: set<Id>, all: set<Id>, id: Id, token: Id)
    requires FreshTokens(tokens, used) && Range(tokens) <= all && token !in all && used <= all && id !in tokens
    ensures FreshTokens(tokens[id := token], used) && Range(tokens[id := token]) <= all + {token}
  {
    assert forall a :: a in tokens ==> tokens[a] in Range(tokens);
  }
}

/** The socket IDs that one process gives to its connections. */
module SocketIDs {
  import opened Text

  const UINT64_RANGE: nat := 0x1_0000_0000_0000_0000

  function SocketID(count: nat, random: nat): string {
    Digits(count) + ['.'] + Digits(random)
  }

  lemma NoDot(n: nat)
    ensures '.' !in Digits(n)
  {
    assert AllDigits(Digits(n));
  }

  /** An ID determines the counter and the random part it was made from. */
  lemma SocketIDInjective(count: nat, random: nat, count': nat, random': nat)
    requires SocketID(count, random) == SocketID(count', random')
    ensures count == count' && random == random'
  {
    NoDot(count);
    NoDot(count');
    CutAt(Digits(count), '.', Digits(random));
    CutAt(Digits(count'), '.', Digits(random'));
    DigitsValue(count);
    DigitsValue(count');
    DigitsValue(random);
    DigitsValue(random');
  }

  /** And no colon, which the signed strings of channels rely on. */
  lemma NoColon(count: nat, random: nat)
    ensures ':' !in SocketID(count, random) && SocketID(count, random) != ""
  {
    assert AllDigits(Digits(count)) && AllDigits(Digits(random));
  }

  class Generator {
    var socketCounter: nat
    ghost var issued: set<string>
    ghost var wrapped: bool

    /** Until the 64-bit counter wraps around, each ID was made from a count up to the current one. */
    ghost predicate Valid()
      reads this
    {
      && socketCounter < UINT64_RANGE
      && (!wrapped ==> forall s :: s in issued ==> exists n: nat, r: nat :: n <= socketCounter && s == SocketID(n, r))
    }

    constructor ()
      ensures Valid() && socketCounter == 1000 && issued == {} && !wrapped
    {
      socketCounter, issued, wrapped := 1000, {}, false;
    }

    /** `draw` is the random number; until the counter wraps around no ID is given twice. */
    method GenerateSocketID(draw: nat) returns (s: string)
      requires Valid() && draw < 900000000
      modifies this
      ensures Valid() && issued == old(issued) + {s}
      ensures wrapped == (old(wrapped) || old(socketCounter) + 1 == UINT64_RANGE)
      ensures !wrapped ==> s !in old(issued)
      ensures s == Digits(socketCounter) + "." + Digits(draw + 100000000) && ':' !in s
      ensures socketCounter == (old(socketCounter) + 1) % UINT64_RANGE
    {
      wrapped := wrapped || socketCounter + 1 == UINT64_RANGE;
      socketCounter := (socketCounter + 1) % UINT64_RANGE;
      s := SocketID(socketCounter, draw + 100000000);
      NoColon(socketCounter, draw + 100000000);
      forall n: nat, r: nat | s == SocketID(n, r) ensures n == socketCounter {
        SocketIDInjective(socketCounter, draw + 100000000, n, r);
      }
      hide SocketID;
      issued := issued + {s};
    }
  }
}

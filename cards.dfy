/** The records the application receives from the remote service, and the
    list computations its handlers run over the card collection: the like
    lookup (`likes.some`), replace-by-id (`state.map`), remove-by-reference
    (`state.filter`) and prepend (`[res, ...cards]`). */
module Cards {
  import opened Outcomes

  type UserId = string
  type CardId = string

  /** The signed-in user's profile as the server returns it. */
  datatype User = User(id: UserId, name: string, about: string, avatar: string)

  /** A card as the server returns it. The application never changes a card
      in place: it swaps whole card objects in and out of the collection, and
      deleting compares objects by reference. A class with constant fields
      keeps exactly that: `==` on cards is reference identity, and two cards
      with equal fields are still two cards. Each entry of `likes` stands for
      the user record of one liker, of which only the `_id` is ever read. */
  class Card {
    const id: CardId
    const name: string
    const link: string
    const ownerId: UserId
    const likes: seq<UserId>

    /** A card record with the given fields, as it arrives from the server. */
    constructor (id: CardId, name: string, link: string, ownerId: UserId, likes: seq<UserId>)
      ensures this.id == id && this.name == name && this.link == link
      ensures this.ownerId == ownerId && this.likes == likes
    {
      this.id := id;
      this.name := name;
      this.link := link;
      this.ownerId := ownerId;
      this.likes := likes;
    }
  }

  /** No two cards of the collection share an id. The server is expected to
      keep this; the application does not check it. */
  predicate UniqueIds(cards: seq<Card>) {
    forall i, j :: 0 <= i < j < |cards| ==> cards[i].id != cards[j].id
  }

  /** Whether some entry of a like list is the user `me`. A user slot that
      still holds the empty object has no id, and no entry matches it. */
  function LikedBy(likes: seq<UserId>, me: Option<UserId>): (r: bool)
    ensures r <==> exists i :: 0 <= i < |likes| && Some(likes[i]) == me
  {
    if likes == [] then false
    else if Some(likes[0]) == me then true
    else
      var tail := LikedBy(likes[1..], me);
      assert forall i :: 1 <= i < |likes| ==> likes[i] == likes[1..][i - 1];
      tail
  }

  /** The collection after a like request settled: each card whose id is `id`
      becomes the server's `newCard`; every other card stays where it was. */
  function ReplaceById(cards: seq<Card>, id: CardId, newCard: Card): (r: seq<Card>)
    ensures |r| == |cards|
    ensures forall i :: 0 <= i < |cards| && cards[i].id == id ==> r[i] == newCard
    ensures forall i :: 0 <= i < |cards| && cards[i].id != id ==> r[i] == cards[i]
  {
    if cards == [] then []
    else [if cards[0].id == id then newCard else cards[0]] + ReplaceById(cards[1..], id, newCard)
  }

  /** The collection after a delete request settled: every occurrence of the
      very object `card` is dropped, whatever the other cards' ids are. */
  function WithoutCard(cards: seq<Card>, card: Card): (r: seq<Card>)
    ensures card !in r
    ensures forall i :: 0 <= i < |r| ==> r[i] in cards
    ensures forall i :: 0 <= i < |cards| && cards[i] != card ==> cards[i] in r
    ensures multiset(r) == multiset(cards)[card := 0]
  {
    if cards == [] then []
    else
      var rest := WithoutCard(cards[1..], card);
      assert multiset(cards) == multiset{cards[0]} + multiset(cards[1..]) by {
        assert cards == [cards[0]] + cards[1..];
      }
      (if cards[0] == card then [] else [cards[0]]) + rest
  }

  /** Replacing by id when no card has that id leaves the collection as it was. */
  lemma {:induction false} ReplaceByIdMissing(cards: seq<Card>, id: CardId, newCard: Card)
    requires forall c :: c in cards ==> c.id != id
    ensures ReplaceById(cards, id, newCard) == cards
  {
    if cards != [] {
      ReplaceByIdMissing(cards[1..], id, newCard);
    }
  }

  /** Replacing twice with the same server card object is the same as
      replacing once. */
  lemma {:induction false} ReplaceByIdIdempotent(cards: seq<Card>, id: CardId, newCard: Card)
    ensures ReplaceById(ReplaceById(cards, id, newCard), id, newCard) == ReplaceById(cards, id, newCard)
  {
    var once := ReplaceById(cards, id, newCard);
    var twice := ReplaceById(once, id, newCard);
    assert |twice| == |once|;
    forall i | 0 <= i < |cards| ensures twice[i] == once[i] {
    }
  }

  /** Two like requests for the same card in flight (a double click) settle
      with two distinct card objects. When the first answer keeps the id, the
      second continuation overwrites every card the first one wrote: the
      collection is as if only the second answer had arrived. */
  lemma {:induction false} ReplaceByIdLastWins(cards: seq<Card>, id: CardId, first: Card, second: Card)
    requires first.id == id
    ensures ReplaceById(ReplaceById(cards, id, first), id, second) == ReplaceById(cards, id, second)
  {
    var a := ReplaceById(ReplaceById(cards, id, first), id, second);
    var b := ReplaceById(cards, id, second);
    forall i | 0 <= i < |cards| ensures a[i] == b[i] {
    }
  }

  /** When the server's card keeps the requested id, every stored card with
      that id is the server's card object afterwards (so its like list is the
      server's); and no two cards share an id if none did before. */
  lemma ReplaceByIdServerIsTruth(cards: seq<Card>, id: CardId, newCard: Card)
    requires newCard.id == id
    ensures forall c :: c in ReplaceById(cards, id, newCard) && c.id == id ==>
              c == newCard
    ensures UniqueIds(cards) ==> UniqueIds(ReplaceById(cards, id, newCard))
  {
    var r := ReplaceById(cards, id, newCard);
    forall c | c in r && c.id == id ensures c == newCard {
      var i :| 0 <= i < |r| && r[i] == c;
      assert cards[i].id == id;
    }
    if UniqueIds(cards) {
      forall i, j | 0 <= i < j < |r| ensures r[i].id != r[j].id {
        assert cards[i].id != cards[j].id;
      }
    }
  }

  /** Deleting a card that is not in the collection changes nothing. */
  lemma {:induction false} WithoutCardAbsent(cards: seq<Card>, card: Card)
    requires card !in cards
    ensures WithoutCard(cards, card) == cards
  {
    if cards != [] {
      WithoutCardAbsent(cards[1..], card);
    }
  }

  /** Removal distributes over concatenation, so the cards that stay keep
      their relative order. */
  lemma {:induction false} WithoutCardConcat(a: seq<Card>, b: seq<Card>, card: Card)
    ensures WithoutCard(a + b, card) == WithoutCard(a, card) + WithoutCard(b, card)
  {
    if a == [] {
      assert a + b == b;
    } else {
      assert (a + b)[1..] == a[1..] + b;
      WithoutCardConcat(a[1..], b, card);
    }
  }

  /** Removal takes out as many cards as there were occurrences of `card`. */
  lemma {:induction false} WithoutCardLength(cards: seq<Card>, card: Card)
    ensures |WithoutCard(cards, card)| == |cards| - multiset(cards)[card]
  {
    if cards != [] {
      WithoutCardLength(cards[1..], card);
      assert cards == [cards[0]] + cards[1..];
    }
  }

  /** In a collection without duplicate ids, a card occurs at most once. */
  lemma {:induction false} UniqueIdsOccursOnce(cards: seq<Card>, card: Card)
    requires UniqueIds(cards)
    requires card in cards
    ensures multiset(cards)[card] == 1
  {
    assert cards == [cards[0]] + cards[1..];
    var tail := cards[1..];
    assert UniqueIds(tail) by {
      forall i, j | 0 <= i < j < |tail| ensures tail[i].id != tail[j].id {
        assert tail[i] == cards[i + 1] && tail[j] == cards[j + 1];
      }
    }
    if cards[0] != card {
      UniqueIdsOccursOnce(tail, card);
    }
  }

  /** Deleting a card that is in a collection without duplicate ids makes the
      collection exactly one card shorter, and it still has no duplicate ids. */
  lemma DeleteRemovesExactlyOne(cards: seq<Card>, card: Card)
    requires UniqueIds(cards)
    requires card in cards
    ensures |WithoutCard(cards, card)| == |cards| - 1
    ensures UniqueIds(WithoutCard(cards, card))
  {
    UniqueIdsOccursOnce(cards, card);
    WithoutCardLength(cards, card);
    WithoutCardKeepsUniqueIds(cards, card);
  }

  /** Removal never introduces a duplicate id. */
  lemma {:induction false} WithoutCardKeepsUniqueIds(cards: seq<Card>, card: Card)
    requires UniqueIds(cards)
    ensures UniqueIds(WithoutCard(cards, card))
  {
    if cards != [] {
      var tail := cards[1..];
      assert UniqueIds(tail) by {
        forall i, j | 0 <= i < j < |tail| ensures tail[i].id != tail[j].id {
          assert tail[i] == cards[i + 1] && tail[j] == cards[j + 1];
        }
      }
      WithoutCardKeepsUniqueIds(tail, card);
      var rest := WithoutCard(tail, card);
      if cards[0] != card {
        var r := [cards[0]] + rest;
        forall i, j | 0 <= i < j < |r| ensures r[i].id != r[j].id {
          if i == 0 {
            assert r[j] in rest;
            assert r[j] in tail;
            var k :| 0 <= k < |tail| && tail[k] == r[j];
            assert cards[k + 1] == r[j];
          } else {
            assert r[i] == rest[i - 1] && r[j] == rest[j - 1];
          }
        }
      }
    }
  }

  /** Prepending the server's new card keeps ids unique exactly when no card
      already in the collection has its id. */
  lemma PrependKeepsUniqueIds(newCard: Card, cards: seq<Card>)
    requires UniqueIds(cards)
    ensures UniqueIds([newCard] + cards) <==> forall c :: c in cards ==> c.id != newCard.id
  {
    var r := [newCard] + cards;
    if forall c :: c in cards ==> c.id != newCard.id {
      forall i, j | 0 <= i < j < |r| ensures r[i].id != r[j].id {
        if i == 0 {
          assert r[j] == cards[j - 1];
        } else {
          assert r[i] == cards[i - 1] && r[j] == cards[j - 1];
        }
      }
    } else {
      var c :| c in cards && c.id == newCard.id;
      var k :| 0 <= k < |cards| && cards[k] == c;
      assert r[0].id == r[k + 1].id;
    }
  }
}

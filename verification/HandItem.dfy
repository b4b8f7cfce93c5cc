// One player's history item of a completed hand: what it shows, and what it can
// never show.
module HandItem {
  import opened Sums

  type PlayerId = string
  type Card = string

  datatype HandInfo = HandInfo(cards: (Card, Card), revealed: bool, revealedCards: (bool, bool))

  // Salts of the deck positions a player may check, and hashes of the others.
  datatype Proof = Proof(salts: map<nat, (Card, string)>, hashes: map<nat, string>)

  datatype Outcome = Outcome(
    participants: seq<PlayerId>,
    winners: seq<PlayerId>,
    payouts: map<PlayerId, int>,
    contributions: map<PlayerId, int>,
    tied: map<PlayerId, bool>,
    hands: map<PlayerId, HandInfo>,
    smallBlind: int,
    bigBlind: int,
    variant: string,
    board: seq<Card>,
    boardTwo: seq<Card>,
    commitHash: string,
    rootCommitHash: string,
    serverSeed: string,
    proofs: map<PlayerId, Proof>)

  datatype Opponent = Opponent(player: PlayerId, name: string, avatar: string, cards: seq<Card>, won: bool)

  datatype Item = Item(
    result: string,
    net: int,
    smallBlind: int,
    bigBlind: int,
    variant: string,
    board: seq<Card>,
    boardTwo: seq<Card>,
    cards: seq<Card>,
    opponents: seq<Opponent>,
    commitHash: string,
    rootCommitHash: string,
    serverSeed: string,
    proof: Option<Proof>)

  const BACK := "back"

  function Text(m: map<PlayerId, string>, id: PlayerId): string { if id in m then m[id] else "" }

  // ---------- What an item is ----------

  // The cards of somebody else's hand that everybody saw.
  function Visible(info: HandInfo): seq<Card> {
    if info.revealed then [info.cards.0, info.cards.1]
    else if info.revealedCards.0 || info.revealedCards.1 then
      [if info.revealedCards.0 then info.cards.0 else BACK, if info.revealedCards.1 then info.cards.1 else BACK]
    else []
  }

  function OpponentsOf(o: Outcome, id: PlayerId, names: map<PlayerId, string>, avatars: map<PlayerId, string>, n: nat): seq<Opponent>
    requires n <= |o.participants|
  {
    if n == 0 then []
    else
      var before, opp := OpponentsOf(o, id, names, avatars, n - 1), o.participants[n - 1];
      if opp == id || opp !in o.hands then before
      else before + [Opponent(opp, Text(names, opp), Text(avatars, opp), Visible(o.hands[opp]), opp in o.winners)]
  }

  predicate AllRevealed(o: Outcome) { forall p :: p in o.hands ==> o.hands[p].revealed }

  function ResultOf(o: Outcome, id: PlayerId): string {
    if id in o.tied && o.tied[id] then "tied" else if id in o.winners then "won" else "lost"
  }

  function OwnCards(o: Outcome, id: PlayerId): seq<Card> {
    if id in o.hands then [o.hands[id].cards.0, o.hands[id].cards.1] else []
  }

  function ShownSeed(o: Outcome): string { if AllRevealed(o) then o.serverSeed else "" }

  function ItemOf(o: Outcome, id: PlayerId, names: map<PlayerId, string>, avatars: map<PlayerId, string>): Item {
    Item(
      ResultOf(o, id), Get(o.payouts, id) - Get(o.contributions, id),
      o.smallBlind, o.bigBlind, o.variant, o.board, o.boardTwo,
      OwnCards(o, id), OpponentsOf(o, id, names, avatars, |o.participants|),
      o.commitHash, o.rootCommitHash, ShownSeed(o),
      if id in o.proofs then Some(o.proofs[id]) else None)
  }

  // A tie beats a win; the net is what was paid out less what was put in, either of
  // them zero when the player is not listed; a dealt hand is shown to its owner.
  predicate TellsOwn(o: Outcome, id: PlayerId, item: Item) {
    var tied := id in o.tied && o.tied[id];
    && item.result in {"tied", "won", "lost"}
    && (item.result == "tied" <==> tied)
    && (item.result == "won" <==> id in o.winners && !tied)
    && (id in o.payouts && id in o.contributions ==> item.net == o.payouts[id] - o.contributions[id])
    && (id in o.payouts && id !in o.contributions ==> item.net == o.payouts[id])
    && (id !in o.payouts && id in o.contributions ==> item.net + o.contributions[id] == 0)
    && (id !in o.payouts && id !in o.contributions ==> item.net == 0)
    && (item.proof.Some? <==> id in o.proofs)
    && (id in o.proofs ==> item.proof == Some(o.proofs[id]))
    && item.cards == if id in o.hands then [o.hands[id].cards.0, o.hands[id].cards.1] else []
  }

  predicate TellsTable(o: Outcome, item: Item) {
    && item.smallBlind == o.smallBlind && item.bigBlind == o.bigBlind && item.variant == o.variant
    && item.board == o.board && item.boardTwo == o.boardTwo
    && item.commitHash == o.commitHash && item.rootCommitHash == o.rootCommitHash
    && ((forall p :: p in o.hands ==> o.hands[p].revealed) ==> item.serverSeed == o.serverSeed)
  }

  lemma ItemTells(o: Outcome, id: PlayerId, names: map<PlayerId, string>, avatars: map<PlayerId, string>)
    ensures var item := ItemOf(o, id, names, avatars); TellsOwn(o, id, item) && TellsTable(o, item)
  {
    hide OpponentsOf;
  }

  method HandItemFor(o: Outcome, id: PlayerId, names: map<PlayerId, string>, avatars: map<PlayerId, string>) returns (item: Item)
    ensures item == ItemOf(o, id, names, avatars)
    ensures TellsOwn(o, id, item) && TellsTable(o, item)
  {
    hide AllRevealed, OpponentsOf, ShownSeed, Get, ResultOf, TellsOwn, TellsTable;
    ItemTells(o, id, names, avatars);
    var net := Get(o.payouts, id) - Get(o.contributions, id);
    var result := Result(o, id);
    var cards: seq<Card> := [];
    if id in o.hands { cards := [o.hands[id].cards.0, o.hands[id].cards.1]; }
    assert cards == OwnCards(o, id);
    hide OwnCards;
    var opponents := Opponents(o, id, names, avatars);
    var seed := SeedOf(o);
    item := Item(result, net, o.smallBlind, o.bigBlind, o.variant, o.board, o.boardTwo, cards, opponents,
      o.commitHash, o.rootCommitHash, seed, None);
    if id in o.proofs { item := item.(proof := Some(o.proofs[id])); }
  }

  method Result(o: Outcome, id: PlayerId) returns (result: string)
    ensures result == ResultOf(o, id)
  {
    result := "lost";
    if id in o.winners { result := "won"; }
    if id in o.tied && o.tied[id] { result := "tied"; }
  }

  // Everybody else who was dealt in.
  method Opponents(o: Outcome, id: PlayerId, names: map<PlayerId, string>, avatars: map<PlayerId, string>) returns (opponents: seq<Opponent>)
    ensures opponents == OpponentsOf(o, id, names, avatars, |o.participants|)
  {
    hide Visible, Text;
    opponents := [];
    for n := 0 to |o.participants|
      invariant opponents == OpponentsOf(o, id, names, avatars, n)
    {
      var opp := o.participants[n];
      if opp == id || opp !in o.hands { continue; }
      var shown := Show(o.hands[opp]);
      var won := false;
      for w := 0 to |o.winners|
        invariant !won && opp !in o.winners[..w]
      {
        if o.winners[w] == opp {
          won := true;
          break;
        }
      }
      assert won == (opp in o.winners) by { assert o.winners[..|o.winners|] == o.winners; }
      opponents := opponents + [Opponent(opp, Text(names, opp), Text(avatars, opp), shown, won)];
    }
  }

  // Turns over, position by position, the cards that were revealed.
  method Show(info: HandInfo) returns (cards: seq<Card>)
    ensures cards == Visible(info)
  {
    cards := [];
    if info.revealed {
      cards := [info.cards.0, info.cards.1];
    } else if info.revealedCards.0 || info.revealedCards.1 {
      cards := [BACK, BACK];
      if info.revealedCards.0 { cards := cards[0 := info.cards.0]; }
      if info.revealedCards.1 { cards := cards[1 := info.cards.1]; }
    }
  }

  // Hands are looked at in no particular order; one that stayed hidden is enough.
  method SeedOf(o: Outcome) returns (seed: string)
    ensures seed == ShownSeed(o)
  {
    var rest := o.hands.Keys;
    while rest != {}
      invariant rest <= o.hands.Keys
      invariant forall p :: p in o.hands && p !in rest ==> o.hands[p].revealed
    {
      var p :| p in rest;
      if !o.hands[p].revealed { return ""; }
      rest := rest - {p};
    }
    seed := o.serverSeed;
  }

  // ---------- What an item cannot show ----------

  // The two hands were revealed alike and agree on every card that was revealed.
  predicate SameSeen(a: HandInfo, b: HandInfo) {
    && a.revealed == b.revealed && a.revealedCards == b.revealedCards
    && (a.revealed || a.revealedCards.0 ==> a.cards.0 == b.cards.0)
    && (a.revealed || a.revealedCards.1 ==> a.cards.1 == b.cards.1)
  }

  // The outcomes differ at most in opponents' unrevealed cards, and in the seed if
  // some hand stayed unrevealed.
  predicate SameTo(id: PlayerId, a: Outcome, b: Outcome) {
    && b == a.(hands := b.hands, serverSeed := b.serverSeed)
    && a.hands.Keys == b.hands.Keys
    && (id in a.hands ==> a.hands[id] == b.hands[id])
    && (forall p :: p in a.hands ==> SameSeen(a.hands[p], b.hands[p]))
    && (AllRevealed(a) ==> a.serverSeed == b.serverSeed)
  }

  lemma {:induction false} SameOpponents(id: PlayerId, a: Outcome, b: Outcome, names: map<PlayerId, string>, avatars: map<PlayerId, string>, n: nat)
    requires SameTo(id, a, b) && n <= |a.participants|
    ensures OpponentsOf(a, id, names, avatars, n) == OpponentsOf(b, id, names, avatars, n)
  {
    if n > 0 { SameOpponents(id, a, b, names, avatars, n - 1); }
  }

  // A player's item is the same whatever was never shown to that player.
  lemma HiddenStaysHidden(id: PlayerId, a: Outcome, b: Outcome, names: map<PlayerId, string>, avatars: map<PlayerId, string>)
    requires SameTo(id, a, b)
    ensures ItemOf(a, id, names, avatars) == ItemOf(b, id, names, avatars)
  {
    SameOpponents(id, a, b, names, avatars, |a.participants|);
  }

  predicate ShowsSeen(o: Outcome, opp: PlayerId, x: Opponent)
    requires opp in o.hands
  {
    var h := o.hands[opp];
    && x.player == opp && (x.won <==> opp in o.winners)
    && (h.revealed || h.revealedCards.0 ==> |x.cards| == 2 && x.cards[0] == h.cards.0)
    && (h.revealed || h.revealedCards.1 ==> |x.cards| == 2 && x.cards[1] == h.cards.1)
  }

  // And it does tell apart what was: an opponent's card that was revealed, and the
  // seed of a hand that was shown in full.
  lemma RevealedIsShown(id: PlayerId, o: Outcome, names: map<PlayerId, string>, avatars: map<PlayerId, string>, opp: PlayerId)
    requires opp in o.participants && opp != id && opp in o.hands
    ensures exists x :: x in ItemOf(o, id, names, avatars).opponents && ShowsSeen(o, opp, x)
  {
    var n :| 0 <= n < |o.participants| && o.participants[n] == opp;
    IsListed(id, o, names, avatars, n, |o.participants|);
    assert ShowsSeen(o, opp, Opponent(opp, Text(names, opp), Text(avatars, opp), Visible(o.hands[opp]), opp in o.winners));
  }

  lemma {:induction false} IsListed(id: PlayerId, o: Outcome, names: map<PlayerId, string>, avatars: map<PlayerId, string>, n: nat, m: nat)
    requires n < m <= |o.participants| && o.participants[n] != id && o.participants[n] in o.hands
    ensures var opp := o.participants[n];
      Opponent(opp, Text(names, opp), Text(avatars, opp), Visible(o.hands[opp]), opp in o.winners)
        in OpponentsOf(o, id, names, avatars, m)
    decreases m
  {
    if n < m - 1 { IsListed(id, o, names, avatars, n, m - 1); }
  }

  // The seed shows only when nothing was left to hide.
  lemma SeedNeedsEveryHand(id: PlayerId, o: Outcome, names: map<PlayerId, string>, avatars: map<PlayerId, string>)
    ensures var seed := ItemOf(o, id, names, avatars).serverSeed;
      seed != "" ==> seed == o.serverSeed && forall p :: p in o.hands ==> o.hands[p].revealed
  {
  }

  // An opponent nobody saw a card of shows none, and no card is shown that neither
  // is a card back nor was revealed.
  lemma {:induction false} OnlyRevealedCards(id: PlayerId, o: Outcome, names: map<PlayerId, string>, avatars: map<PlayerId, string>, n: nat, x: Opponent)
    requires n <= |o.participants| && x in OpponentsOf(o, id, names, avatars, n)
    ensures x.player != id && x.player in o.hands && x.player in o.participants
    ensures var h := o.hands[x.player];
      && (!h.revealed && !h.revealedCards.0 && !h.revealedCards.1 ==> x.cards == [])
      && (|x.cards| > 0 && !h.revealed && !h.revealedCards.0 ==> x.cards[0] == BACK)
      && (|x.cards| > 1 && !h.revealed && !h.revealedCards.1 ==> x.cards[1] == BACK)
  {
    if x !in OpponentsOf(o, id, names, avatars, n - 1) {
      assert x.player == o.participants[n - 1];
    } else {
      OnlyRevealedCards(id, o, names, avatars, n - 1, x);
    }
  }
}

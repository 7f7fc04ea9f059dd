/** The `App` component: the seven state slots it owns and the handlers that
    change them. Every request to the remote service is split in two: what the
    handler does before the request goes out (`Begin…`), and what its promise
    continuation does once the request has settled (`Settle…`), with the
    service's answer passed in as an `Outcome`. */
module App {
  import opened Outcomes
  import opened Cards

  /** The arguments of `changeLikeStatus`: the card's id and the like status
      wanted after the request. */
  datatype LikeRequest = LikeRequest(cardId: CardId, like: bool)

  class AppState {
    var cards: seq<Card>
    var currentUser: Option<User>
    var isEditProfilePopupOpen: bool
    var isAddPlacePopupOpen: bool
    var isEditAvatarPopupOpen: bool
    var selectedCard: Option<Card>
    var showLoading: bool

    /** The slots as they are on mount, before either initial fetch settles. */
    constructor ()
      ensures cards == [] && currentUser == None
      ensures !isEditProfilePopupOpen && !isAddPlacePopupOpen && !isEditAvatarPopupOpen
      ensures selectedCard == None && !showLoading
    {
      cards := [];
      currentUser := None;
      isEditProfilePopupOpen := false;
      isAddPlacePopupOpen := false;
      isEditAvatarPopupOpen := false;
      selectedCard := None;
      showLoading := false;
    }

    /** No popup is open and no card is shown full-size. */
    predicate PopupsClosed()
      reads this
    {
      !isEditProfilePopupOpen && !isAddPlacePopupOpen && !isEditAvatarPopupOpen &&
      selectedCard == None
    }

    /** `currentUser._id`: absent while the slot holds the empty object. */
    function CurrentUserId(): (r: Option<UserId>)
      reads this
    {
      if currentUser.Some? then Some(currentUser.value.id) else None
    }

    /** The continuation of the initial `getInitialCards` request: the server's
        list on success; on failure the slot keeps what it held. */
    method SettleInitialCards(outcome: Outcome<seq<Card>>)
      modifies this`cards
      ensures outcome.Resolved? ==> cards == outcome.value
      ensures outcome.Rejected? ==> cards == old(cards)
    {
      if outcome.Resolved? {
        cards := outcome.value;
      }
    }

    /** The continuation of the initial `getUserInfo` request: the server's
        record on success; on failure the slot keeps what it held. */
    method SettleUserInfo(outcome: Outcome<User>)
      modifies this`currentUser
      ensures outcome.Resolved? ==> currentUser == Some(outcome.value)
      ensures outcome.Rejected? ==> currentUser == old(currentUser)
    {
      if outcome.Resolved? {
        currentUser := Some(outcome.value);
      }
    }

    /** `handleCardLike`, up to the request: asks for the card to be liked
        exactly when none of its likes is the current user. Changes nothing. */
    method BeginCardLike(card: Card) returns (req: LikeRequest)
      ensures req.cardId == card.id
      ensures req.like <==> forall i :: 0 <= i < |card.likes| ==> Some(card.likes[i]) != CurrentUserId()
      ensures currentUser == None ==> req.like
    {
      var isLiked := LikedBy(card.likes, CurrentUserId());
      req := LikeRequest(card.id, !isLiked);
    }

    /** `handleCardLike`, once `changeLikeStatus` has settled: on success every
        card with the liked card's id is replaced by the server's card, in the
        collection as it is at that moment; on failure nothing changes. */
    method SettleCardLike(card: Card, outcome: Outcome<Card>)
      modifies this`cards
      ensures outcome.Resolved? ==> cards == ReplaceById(old(cards), card.id, outcome.value)
      ensures outcome.Rejected? ==> cards == old(cards)
    {
      if outcome.Resolved? {
        cards := ReplaceById(cards, card.id, outcome.value);
      }
    }

    /** `handleCardDelete`, up to the request: `deleteCard` is sent the card's
        id. Changes nothing. */
    method BeginCardDelete(card: Card) returns (id: CardId)
      ensures id == card.id
    {
      id := card.id;
    }

    /** `handleCardDelete`, once `deleteCard(card._id)` has settled: on success
        the very object `card` is filtered out of the collection; on failure
        nothing changes. */
    method SettleCardDelete(card: Card, outcome: Outcome<()>)
      modifies this`cards
      ensures outcome.Resolved? ==> cards == WithoutCard(old(cards), card)
      ensures outcome.Rejected? ==> cards == old(cards)
    {
      if outcome.Resolved? {
        cards := WithoutCard(cards, card);
      }
    }

    /** `handleUpdateUser`, up to the `setUserInfo` request. */
    method BeginUpdateUser()
      modifies this`showLoading
      ensures showLoading
    {
      showLoading := true;
    }

    /** `handleUpdateUser`, once `setUserInfo` has settled: on success the
        server's record becomes the current user and every popup closes; on
        failure the user and the popups stay as they were. Either way the
        loading indicator is cleared. */
    method SettleUpdateUser(outcome: Outcome<User>)
      modifies this`currentUser, this`isEditProfilePopupOpen, this`isAddPlacePopupOpen,
               this`isEditAvatarPopupOpen, this`selectedCard, this`showLoading
      ensures outcome.Resolved? ==> currentUser == Some(outcome.value) && PopupsClosed()
      ensures outcome.Rejected? ==> currentUser == old(currentUser)
      ensures outcome.Rejected? ==>
                isEditProfilePopupOpen == old(isEditProfilePopupOpen) &&
                isAddPlacePopupOpen == old(isAddPlacePopupOpen) &&
                isEditAvatarPopupOpen == old(isEditAvatarPopupOpen) &&
                selectedCard == old(selectedCard)
      ensures !showLoading
    {
      if outcome.Resolved? {
        currentUser := Some(outcome.value);
        CloseAllPopups();
      }
      showLoading := false;
    }

    /** `handleUpdateAvatar`, up to the `updateUserAvatar` request. */
    method BeginUpdateAvatar()
      modifies this`showLoading
      ensures showLoading
    {
      showLoading := true;
    }

    /** `handleUpdateAvatar`, once `updateUserAvatar` has settled: on success
        the server's record becomes the current user and every popup closes;
        on failure the user and the popups stay as they were. Either way the
        loading indicator is cleared. */
    method SettleUpdateAvatar(outcome: Outcome<User>)
      modifies this`currentUser, this`isEditProfilePopupOpen, this`isAddPlacePopupOpen,
               this`isEditAvatarPopupOpen, this`selectedCard, this`showLoading
      ensures outcome.Resolved? ==> currentUser == Some(outcome.value) && PopupsClosed()
      ensures outcome.Rejected? ==> currentUser == old(currentUser)
      ensures outcome.Rejected? ==>
                isEditProfilePopupOpen == old(isEditProfilePopupOpen) &&
                isAddPlacePopupOpen == old(isAddPlacePopupOpen) &&
                isEditAvatarPopupOpen == old(isEditAvatarPopupOpen) &&
                selectedCard == old(selectedCard)
      ensures !showLoading
    {
      if outcome.Resolved? {
        currentUser := Some(outcome.value);
        CloseAllPopups();
      }
      showLoading := false;
    }

    /** `handleAddPlaceSubmit`, up to the `addUserCard` request. */
    method BeginAddPlace()
      modifies this`showLoading
      ensures showLoading
    {
      showLoading := true;
    }

    /** `handleAddPlaceSubmit`, once `addUserCard` has settled: on success the
        server's new card is put in front of the collection and every popup
        closes; on failure the collection and the popups stay as they were.
        Either way the loading indicator is cleared. */
    method SettleAddPlace(outcome: Outcome<Card>)
      modifies this`cards, this`isEditProfilePopupOpen, this`isAddPlacePopupOpen,
               this`isEditAvatarPopupOpen, this`selectedCard, this`showLoading
      ensures outcome.Resolved? ==> cards == [outcome.value] + old(cards) && PopupsClosed()
      ensures outcome.Rejected? ==> cards == old(cards)
      ensures outcome.Rejected? ==>
                isEditProfilePopupOpen == old(isEditProfilePopupOpen) &&
                isAddPlacePopupOpen == old(isAddPlacePopupOpen) &&
                isEditAvatarPopupOpen == old(isEditAvatarPopupOpen) &&
                selectedCard == old(selectedCard)
      ensures !showLoading
    {
      if outcome.Resolved? {
        cards := [outcome.value] + cards;
        CloseAllPopups();
      }
      showLoading := false;
    }

    /** `handleCardClick`: the card to show full-size. */
    method SelectCard(card: Card)
      modifies this`selectedCard
      ensures selectedCard == Some(card)
    {
      selectedCard := Some(card);
    }

    /** `handleEditProfileClick`: opens its own popup and touches no other slot. */
    method OpenEditProfile()
      modifies this`isEditProfilePopupOpen
      ensures isEditProfilePopupOpen
    {
      isEditProfilePopupOpen := true;
    }

    /** `handleAddPlaceClick`: opens its own popup and touches no other slot. */
    method OpenAddPlace()
      modifies this`isAddPlacePopupOpen
      ensures isAddPlacePopupOpen
    {
      isAddPlacePopupOpen := true;
    }

    /** `handleEditAvatarClick`: opens its own popup and touches no other slot. */
    method OpenEditAvatar()
      modifies this`isEditAvatarPopupOpen
      ensures isEditAvatarPopupOpen
    {
      isEditAvatarPopupOpen := true;
    }

    /** `closeAllPopups`: closes the three popups and clears the selected card.
        Calling it when everything is already closed changes nothing, so a
        second call in a row has no effect. */
    method CloseAllPopups()
      modifies this`isEditProfilePopupOpen, this`isAddPlacePopupOpen,
               this`isEditAvatarPopupOpen, this`selectedCard
      ensures PopupsClosed()
      ensures old(PopupsClosed()) ==> unchanged(this)
    {
      isEditAvatarPopupOpen := false;
      isAddPlacePopupOpen := false;
      isEditProfilePopupOpen := false;
      selectedCard := None;
    }
  }

  /** A session as a caller sees it through the contracts alone: the card
      fetch fails and the user fetch succeeds on mount; then a profile edit is
      rejected, and a retry succeeds. */
  method MountThenProfileEdit(user: User, edited: User)
  {
    var app := new AppState();
    app.SettleInitialCards(Rejected);
    app.SettleUserInfo(Resolved(user));
    assert app.cards == [] && app.currentUser == Some(user);

    app.OpenEditProfile();
    app.BeginUpdateUser();
    assert app.showLoading;
    app.SettleUpdateUser(Rejected);
    assert app.currentUser == Some(user) && app.isEditProfilePopupOpen && !app.showLoading;

    app.BeginUpdateUser();
    app.SettleUpdateUser(Resolved(edited));
    assert app.currentUser == Some(edited) && app.PopupsClosed() && !app.showLoading;
    assert app.cards == [];
  }

  /** The like round trip for a card nobody has liked yet: the request asks
      for "liked", and the server's answer replaces the card in the collection. */
  method LikeUnlikedCard(user: User)
  {
    var app := new AppState();
    app.SettleUserInfo(Resolved(user));
    var card := new Card("5", "Place", "link", "owner", []);
    app.SettleInitialCards(Resolved([card]));
    var req := app.BeginCardLike(card);
    assert req == LikeRequest("5", true);
    var server := new Card("5", "Place", "link", "owner", [user.id]);
    app.SettleCardLike(card, Resolved(server));
    assert app.cards == [server];
  }

  /** Two overlapping submissions, and a double-clicked like. The profile
      answer clears the loading flag while the add-place request is still out;
      of the two like answers, the one that settles last is what stays. */
  method OverlappingRequests(user: User, other: Card)
  {
    var app := new AppState();
    app.BeginUpdateUser();
    app.BeginAddPlace();
    app.SettleUpdateUser(Resolved(user));
    assert !app.showLoading;

    var card := new Card("5", "Place", "link", "owner", []);
    app.SettleInitialCards(Resolved([card, other]));
    var req1 := app.BeginCardLike(card);
    var req2 := app.BeginCardLike(card);
    assert req1 == req2;
    var first := new Card("5", "Place", "link", "owner", [user.id]);
    var second := new Card("5", "Place", "link", "owner", [user.id]);
    app.SettleCardLike(card, Resolved(first));
    app.SettleCardLike(card, Resolved(second));
    ReplaceByIdLastWins([card, other], "5", first, second);
    assert app.cards == ReplaceById([card, other], "5", second);
  }
}

/**
 * The comment form widget: a draft seeded for creating, replying or editing,
 * submit and cancel, and the two remote autocomplete lookups (user mentions
 * and community mentions) that share one inbound message stream.
 *
 * The outbound socket is a log of requests; the inbound stream is the list of
 * listeners this form subscribed, in subscription order, with the set of
 * those already unsubscribed.  The host's `onReplyCancel` is a counter and
 * the autocomplete callbacks handed in by the mention menu are opaque ids
 * whose invocations are logged.
 *
 * Delivery on the shared stream is assumed to visit listeners in subscription
 * order and to skip a listener that is already unsubscribed when its turn
 * comes, including one unsubscribed earlier in the same delivery.
 */
module CommentFormModel {
  import opened Common

  type Id = int

  /** The comment the form is attached to (`props.node.comment`). */
  datatype Comment = Comment(id: Id, postId: Id, parentId: Option<Id>, content: string, creatorId: Id)

  /** What the host passes in; an absent `edit` flag is `false`. */
  datatype Props = Props(postId: Option<Id>, node: Option<Comment>, edit: bool, disabled: bool)

  /** `state.commentForm`; `null` and `undefined` are both `None`. */
  datatype Draft = Draft(postId: Option<Id>, parentId: Option<Id>, editId: Option<Id>, creatorId: Option<Id>, content: Option<string>)

  /** The submit button's label, one per mode of the form. */
  datatype ButtonTitle = Post | Edit | Reply

  datatype SearchType = Users | Communities
  datatype SortType = TopAll
  datatype SearchForm = SearchForm(q: string, searchType: SearchType, sort: SortType, page: int, limit: int)

  /** What the form sends over the socket. */
  datatype Request = CreateComment(form: Draft) | EditComment(form: Draft) | SearchRequest(search: SearchForm)

  /** The operation tag `msgOp` reads off an inbound message; `Other` stands for every non-search operation. */
  datatype UserOperation = Search | Other

  /** A user or community in a search response; only its name is read. */
  datatype SearchHit = SearchHit(name: string)

  /** An inbound message; the two lists are a `SearchResponse`'s and are read only when `op == Search`. */
  datatype Message = Message(op: UserOperation, users: seq<SearchHit>, communities: seq<SearchHit>)

  /** A menu entry `{key: name}`. */
  datatype Item = Item(key: string)

  type CallbackId = nat

  /** A subscription on the shared stream: which lookup made it and whose callback it answers. */
  datatype Listener = Listener(searchType: SearchType, cb: CallbackId)

  /** One invocation of an autocomplete callback. */
  datatype Answer = Answer(cb: CallbackId, items: seq<Item>)

  /** What one inbound message does: the new set of unsubscribed listeners and the callbacks it fired, in order. */
  datatype Delivery = Delivery(closed: set<nat>, fired: seq<Answer>)

  // ---------------------------------------------------------------------------
  // Mention menu configuration and insertion markup
  // ---------------------------------------------------------------------------

  /** The three mention collections, by their trigger characters `:`, `@` and `#`. */
  datatype Trigger = Colon | At | Hash

  const MenuItemLimit: nat := 10
  const AllowSpaces: bool := false

  /** The markup a chosen entry `key` is replaced with. */
  function SelectTemplate(t: Trigger, key: string): string
  {
    match t
    case Colon => ":" + key + ":"
    case At => "[/u/" + key + "](/u/" + key + ")"
    case Hash => "[/c/" + key + "](/c/" + key + ")"
  }

  /** The key a piece of markup of kind `t` would carry, read off its length and position. */
  function CandidateKey(t: Trigger, s: string): string
  {
    if t == Colon then (if |s| >= 2 then s[1..|s| - 1] else "")
    else if |s| >= 10 then s[4..4 + (|s| - 10) / 2] else ""
  }

  lemma CandidateKeyOfTemplate(t: Trigger, key: string)
    ensures CandidateKey(t, SelectTemplate(t, key)) == key
  {
  }

  /** Reads the key back out of a piece of markup: the one key whose markup of kind `t` is `s`, if any. */
  function TemplateKey(t: Trigger, s: string): (r: Option<string>)
    ensures forall k :: r == Some(k) <==> SelectTemplate(t, k) == s
  {
    var key := CandidateKey(t, s);
    assert forall k :: SelectTemplate(t, k) == s ==> k == key by {
      forall k | SelectTemplate(t, k) == s ensures k == key {
        CandidateKeyOfTemplate(t, k);
      }
    }
    if SelectTemplate(t, key) == s then Some(key) else None
  }

  /** Every inserted mention can be read back: the markup determines the key. */
  lemma TemplateKeyRoundTrip(t: Trigger, key: string)
    ensures TemplateKey(t, SelectTemplate(t, key)) == Some(key)
  {
  }

  /** The three kinds of markup never collide, and within a kind distinct keys give distinct markup. */
  lemma SelectTemplateInjective(t1: Trigger, k1: string, t2: Trigger, k2: string)
    requires SelectTemplate(t1, k1) == SelectTemplate(t2, k2)
    ensures t1 == t2 && k1 == k2
  {
    var s := SelectTemplate(t1, k1);
    assert s[0] == (if t1 == Colon then ':' else '[');
    assert SelectTemplate(t2, k2)[0] == (if t2 == Colon then ':' else '[');
    if t1 != Colon {
      assert s[2] == (if t1 == At then 'u' else 'c');
      assert SelectTemplate(t2, k2)[2] == (if t2 == At then 'u' else 'c');
    }
    TemplateKeyRoundTrip(t1, k1);
    TemplateKeyRoundTrip(t2, k2);
  }

  // ---------------------------------------------------------------------------
  // The draft and its mode
  // ---------------------------------------------------------------------------

  /** The mode a draft is in: an edit id marks an edit, a parent id without one a reply. */
  function ModeOf(d: Draft): ButtonTitle
  {
    if d.editId.Some? then Edit else if d.parentId.Some? then Reply else Post
  }

  // ---------------------------------------------------------------------------
  // Lookup results and delivery on the shared stream
  // ---------------------------------------------------------------------------

  /** `hits.map(u => ({key: u.name}))`. */
  function Keys(hits: seq<SearchHit>): (r: seq<Item>)
    ensures |r| == |hits|
    ensures forall i :: 0 <= i < |hits| ==> r[i] == Item(hits[i].name)
  {
    if hits == [] then [] else [Item(hits[0].name)] + Keys(hits[1..])
  }

  /** The items a listener of the given kind hands its callback: the users or the communities of the response. */
  function Results(searchType: SearchType, msg: Message): seq<Item>
  {
    if searchType == Users then Keys(msg.users) else Keys(msg.communities)
  }

  /** The subscription slot (`userSub` or `communitySub`) for a kind of lookup. */
  function Slot(userSub: Option<nat>, communitySub: Option<nat>, searchType: SearchType): Option<nat>
  {
    if searchType == Users then userSub else communitySub
  }

  /** The most recent listener of a kind, which is what its slot holds. */
  function LastOn(ls: seq<Listener>, searchType: SearchType): (r: Option<nat>)
    ensures r.Some? ==> r.value < |ls| && ls[r.value].searchType == searchType
    ensures r.Some? ==> forall k :: r.value < k < |ls| ==> ls[k].searchType != searchType
    ensures r.None? ==> forall k :: 0 <= k < |ls| ==> ls[k].searchType != searchType
  {
    if ls == [] then None
    else if ls[|ls| - 1].searchType == searchType then Some(|ls| - 1)
    else LastOn(ls[..|ls| - 1], searchType)
  }

  /**
   * Delivery of `msg` to listeners `i..` given the set `closed` of
   * unsubscribed ones.  A live listener ignores any operation but `Search`;
   * on `Search` it calls its callback with the names of its kind and then
   * unsubscribes whatever subscription its kind's slot holds now.
   */
  function DeliverFrom(ls: seq<Listener>, userSub: Option<nat>, communitySub: Option<nat>, msg: Message, i: nat, closed: set<nat>)
    : Delivery
    decreases |ls| - i
  {
    if i >= |ls| then Delivery(closed, [])
    else if i in closed || msg.op != Search then DeliverFrom(ls, userSub, communitySub, msg, i + 1, closed)
    else
      var slot := Slot(userSub, communitySub, ls[i].searchType);
      var rest := DeliverFrom(ls, userSub, communitySub, msg, i + 1, if slot.Some? then closed + {slot.value} else closed);
      Delivery(rest.closed, [Answer(ls[i].cb, Results(ls[i].searchType, msg))] + rest.fired)
  }

  /** Each slot, when set, holds a listener of its own kind. */
  ghost predicate SlotsOnTheirKind(ls: seq<Listener>, userSub: Option<nat>, communitySub: Option<nat>)
  {
    (userSub.Some? ==> userSub.value < |ls| && ls[userSub.value].searchType == Users) &&
    (communitySub.Some? ==> communitySub.value < |ls| && ls[communitySub.value].searchType == Communities)
  }

  /** Some listener of the kind below index `j` was live before the delivery started. */
  ghost predicate LiveBefore(ls: seq<Listener>, closed: set<nat>, searchType: SearchType, j: nat)
  {
    exists k :: 0 <= k < j && k < |ls| && k !in closed && ls[k].searchType == searchType
  }

  /** The unsubscribed set once a `Search` message has passed listeners `0..i`. */
  ghost function ClosedAt(ls: seq<Listener>, userSub: Option<nat>, communitySub: Option<nat>, closed: set<nat>, i: nat): set<nat>
  {
    closed
    + (if userSub.Some? && LiveBefore(ls, closed, Users, i) then {userSub.value} else {})
    + (if communitySub.Some? && LiveBefore(ls, closed, Communities, i) then {communitySub.value} else {})
  }

  /**
   * Whether listener `j` fires on a `Search` message: it was live, and it is
   * not the slot's listener with an older live listener of its kind ahead of
   * it (that one fires first and unsubscribes it).
   */
  ghost predicate Fires(ls: seq<Listener>, userSub: Option<nat>, communitySub: Option<nat>, closed: set<nat>, j: nat)
    requires j < |ls|
  {
    j !in closed
    && !(Slot(userSub, communitySub, ls[j].searchType) == Some(j) && LiveBefore(ls, closed, ls[j].searchType, j))
  }

  /** The answers of the listeners `i..` that fire, in subscription order. */
  ghost function FiredFrom(ls: seq<Listener>, userSub: Option<nat>, communitySub: Option<nat>, closed: set<nat>, msg: Message, i: nat)
    : seq<Answer>
    decreases |ls| - i
  {
    if i >= |ls| then []
    else
      (if Fires(ls, userSub, communitySub, closed, i) then [Answer(ls[i].cb, Results(ls[i].searchType, msg))] else [])
      + FiredFrom(ls, userSub, communitySub, closed, msg, i + 1)
  }

  /** A message of any other operation fires no callback and unsubscribes nothing. */
  lemma {:induction false} OtherOperationIgnored(ls: seq<Listener>, userSub: Option<nat>, communitySub: Option<nat>, msg: Message, i: nat, closed: set<nat>)
    requires msg.op != Search
    ensures DeliverFrom(ls, userSub, communitySub, msg, i, closed) == Delivery(closed, [])
    decreases |ls| - i
  {
    if i < |ls| {
      OtherOperationIgnored(ls, userSub, communitySub, msg, i + 1, closed);
    }
  }

  lemma {:induction false} SearchDeliveryFrom(ls: seq<Listener>, userSub: Option<nat>, communitySub: Option<nat>, closed: set<nat>, msg: Message, i: nat)
    requires msg.op == Search && SlotsOnTheirKind(ls, userSub, communitySub) && i <= |ls|
    ensures DeliverFrom(ls, userSub, communitySub, msg, i, ClosedAt(ls, userSub, communitySub, closed, i))
            == Delivery(ClosedAt(ls, userSub, communitySub, closed, |ls|), FiredFrom(ls, userSub, communitySub, closed, msg, i))
    decreases |ls| - i
  {
    if i < |ls| {
      var c := ClosedAt(ls, userSub, communitySub, closed, i);
      var next := ClosedAt(ls, userSub, communitySub, closed, i + 1);
      var t := ls[i].searchType;
      var slot := Slot(userSub, communitySub, t);
      assert LiveBefore(ls, closed, Users, i) ==> LiveBefore(ls, closed, Users, i + 1);
      assert LiveBefore(ls, closed, Communities, i) ==> LiveBefore(ls, closed, Communities, i + 1);
      if i in closed {
        assert LiveBefore(ls, closed, Users, i + 1) ==> LiveBefore(ls, closed, Users, i);
        assert LiveBefore(ls, closed, Communities, i + 1) ==> LiveBefore(ls, closed, Communities, i);
        assert next == c;
        assert !Fires(ls, userSub, communitySub, closed, i);
      } else {
        assert LiveBefore(ls, closed, t, i + 1);
        var other := if t == Users then Communities else Users;
        assert LiveBefore(ls, closed, other, i + 1) ==> LiveBefore(ls, closed, other, i);
        if i in c {
          assert slot == Some(i) && LiveBefore(ls, closed, t, i);
          assert next == c;
          assert !Fires(ls, userSub, communitySub, closed, i);
        } else {
          assert Fires(ls, userSub, communitySub, closed, i);
          assert next == if slot.Some? then c + {slot.value} else c;
        }
      }
      SearchDeliveryFrom(ls, userSub, communitySub, closed, msg, i + 1);
    }
  }

  /**
   * What a `Search` message does to the listeners: exactly the listeners
   * described by `Fires` answer, in subscription order, and the only
   * subscriptions it ends are those held in the slots of kinds that had a
   * live listener.
   */
  lemma SearchDelivery(ls: seq<Listener>, userSub: Option<nat>, communitySub: Option<nat>, closed: set<nat>, msg: Message)
    requires msg.op == Search && SlotsOnTheirKind(ls, userSub, communitySub)
    ensures DeliverFrom(ls, userSub, communitySub, msg, 0, closed).fired == FiredFrom(ls, userSub, communitySub, closed, msg, 0)
    ensures DeliverFrom(ls, userSub, communitySub, msg, 0, closed).closed
            == closed
               + (if userSub.Some? && LiveBefore(ls, closed, Users, |ls|) then {userSub.value} else {})
               + (if communitySub.Some? && LiveBefore(ls, closed, Communities, |ls|) then {communitySub.value} else {})
  {
    assert ClosedAt(ls, userSub, communitySub, closed, 0) == closed;
    SearchDeliveryFrom(ls, userSub, communitySub, closed, msg, 0);
  }

  /** A live listener that no slot holds any more is never unsubscribed by a delivery: it stays subscribed for good. */
  lemma SupersededListenerStaysSubscribed(ls: seq<Listener>, userSub: Option<nat>, communitySub: Option<nat>, closed: set<nat>, msg: Message, j: nat)
    requires SlotsOnTheirKind(ls, userSub, communitySub)
    requires j !in closed && userSub != Some(j) && communitySub != Some(j)
    ensures j !in DeliverFrom(ls, userSub, communitySub, msg, 0, closed).closed
  {
    if msg.op == Search {
      SearchDelivery(ls, userSub, communitySub, closed, msg);
    } else {
      OtherOperationIgnored(ls, userSub, communitySub, msg, 0, closed);
    }
  }

  /**
   * Two user lookups issued before any response: the first `Search` message
   * is answered to the FIRST lookup's callback, which then unsubscribes the
   * second lookup; the first lookup's listener stays subscribed and answers
   * the next `Search` message again.
   */
  lemma SupersededLookupAnswersFirst(q1: CallbackId, q2: CallbackId, msg: Message)
    requires msg.op == Search
    ensures var ls := [Listener(Users, q1), Listener(Users, q2)];
            var first := DeliverFrom(ls, Some(1), None, msg, 0, {});
            first == Delivery({1}, [Answer(q1, Keys(msg.users))])
            && DeliverFrom(ls, Some(1), None, msg, 0, first.closed) == first
  {
    var ls := [Listener(Users, q1), Listener(Users, q2)];
    var answered := Delivery({1}, [Answer(q1, Keys(msg.users))]);
    assert DeliverFrom(ls, Some(1), None, msg, 2, {1}) == Delivery({1}, []);
    assert DeliverFrom(ls, Some(1), None, msg, 1, {1}) == Delivery({1}, []);
    assert {} + {1} == {1} && {1} + {1} == {1};
    assert DeliverFrom(ls, Some(1), None, msg, 0, {}) == answered;
    assert DeliverFrom(ls, Some(1), None, msg, 0, {1}) == answered;
  }

  /** One `Search` message answers a pending user lookup and a pending community lookup alike. */
  lemma SearchReachesBothKinds(u: CallbackId, c: CallbackId, msg: Message)
    requires msg.op == Search
    ensures DeliverFrom([Listener(Users, u), Listener(Communities, c)], Some(0), Some(1), msg, 0, {})
            == Delivery({0, 1}, [Answer(u, Keys(msg.users)), Answer(c, Keys(msg.communities))])
  {
    var ls := [Listener(Users, u), Listener(Communities, c)];
    assert {} + {0} == {0} && {0} + {1} == {0, 1};
    assert DeliverFrom(ls, Some(0), Some(1), msg, 2, {0, 1}) == Delivery({0, 1}, []);
    assert DeliverFrom(ls, Some(0), Some(1), msg, 1, {0}) == Delivery({0, 1}, [Answer(c, Keys(msg.communities))]);
    assert DeliverFrom(ls, Some(0), Some(1), msg, 0, {})
           == Delivery({0, 1}, [Answer(u, Keys(msg.users))] + [Answer(c, Keys(msg.communities))]);
  }

  // ---------------------------------------------------------------------------
  // The component
  // ---------------------------------------------------------------------------

  class CommentForm {
    const props: Props
    const buttonTitle: ButtonTitle
    /** `state.commentForm`. */
    var form: Draft
    /** Everything sent over the socket, oldest first. */
    var requests: seq<Request>
    /** How many times the host's `onReplyCancel` was called. */
    var cancelNotices: nat
    /** Every autocomplete callback invocation, oldest first. */
    var answers: seq<Answer>
    /** The listeners this form subscribed on the shared stream; a subscription is its index. */
    var listeners: seq<Listener>
    /** The subscriptions that were unsubscribed. */
    var closed: set<nat>
    var userSub: Option<nat>
    var communitySub: Option<nat>

    /** The draft stays in the mode its title announces; each slot holds the newest lookup of its kind. */
    ghost predicate Valid()
      reads this
    {
      ModeOf(form) == buttonTitle
      && userSub == LastOn(listeners, Users)
      && communitySub == LastOn(listeners, Communities)
    }

    /** The constructor and `emptyState`: seed the draft for creating, replying or editing. */
    constructor (props: Props, currentUser: Option<Id>)
      ensures Valid() && this.props == props
      ensures buttonTitle == Post <==> props.node.None?
      ensures buttonTitle == Edit <==> props.node.Some? && props.edit
      ensures form.postId == if props.node.Some? then Some(props.node.value.postId) else props.postId
      ensures props.node.None? ==> form == Draft(props.postId, None, None, currentUser, None)
      ensures props.node.Some? && props.edit ==>
                var c := props.node.value;
                form == Draft(Some(c.postId), c.parentId, Some(c.id), Some(c.creatorId), Some(c.content))
      ensures props.node.Some? && !props.edit ==>
                var c := props.node.value;
                form == Draft(Some(c.postId), Some(c.id), None, currentUser, None)
      ensures requests == [] && cancelNotices == 0 && answers == []
      ensures listeners == [] && closed == {} && userSub == None && communitySub == None
    {
      this.props := props;
      form := Draft(if props.node.Some? then Some(props.node.value.postId) else props.postId,
                    None, None, currentUser, None);
      buttonTitle := if props.node.None? then Post else if props.edit then Edit else Reply;
      requests, cancelNotices, answers := [], 0, [];
      listeners, closed, userSub, communitySub := [], {}, None, None;
      new;
      if props.node.Some? {
        var c := props.node.value;
        if props.edit {
          form := form.(editId := Some(c.id));
          form := form.(parentId := c.parentId);
          form := form.(content := Some(c.content));
          form := form.(creatorId := Some(c.creatorId));
        } else {
          form := form.(parentId := Some(c.id));
        }
      }
    }

    /** `handleCommentSubmit`: send one create or edit request, clear the content, dismiss a reply or edit. */
    method HandleCommentSubmit()
      requires Valid()
      modifies this`form, this`requests, this`cancelNotices
      ensures Valid()
      ensures requests == old(requests) + [if props.edit then EditComment(old(form)) else CreateComment(old(form))]
      ensures form == old(form).(content := None)
      ensures cancelNotices == old(cancelNotices) + (if props.node.Some? then 1 else 0)
    {
      if props.edit {
        requests := requests + [EditComment(form)];
      } else {
        requests := requests + [CreateComment(form)];
      }
      form := form.(content := None);
      if props.node.Some? {
        cancelNotices := cancelNotices + 1;
      }
    }

    /** `handleCommentContentChange`, and the `tribute-replaced` listener: the text area's value becomes the content. */
    method HandleCommentContentChange(value: string)
      requires Valid()
      modifies this`form
      ensures Valid()
      ensures form == old(form).(content := Some(value))
    {
      form := form.(content := Some(value));
    }

    /** `handleReplyCancel`: only tells the host. */
    method HandleReplyCancel()
      requires Valid()
      modifies this`cancelNotices
      ensures Valid()
      ensures cancelNotices == old(cancelNotices) + 1
    {
      cancelNotices := cancelNotices + 1;
    }

    /**
     * `userSearch` (`searchType == Users`) and `communitySearch`
     * (`searchType == Communities`).  Empty text answers `[]` at once; any
     * other text sends a search and subscribes a new listener, which replaces
     * the slot's subscription without unsubscribing it.
     */
    method Search(searchType: SearchType, text: string, cb: CallbackId)
      requires Valid()
      modifies this`requests, this`answers, this`listeners, this`userSub, this`communitySub
      ensures Valid()
      ensures closed == old(closed)
      ensures text == "" ==>
                answers == old(answers) + [Answer(cb, [])] && requests == old(requests)
                && listeners == old(listeners) && userSub == old(userSub) && communitySub == old(communitySub)
      ensures text != "" ==>
                answers == old(answers)
                && requests == old(requests) + [SearchRequest(SearchForm(text, searchType, TopAll, 1, 6))]
                && listeners == old(listeners) + [Listener(searchType, cb)]
      ensures text != "" && searchType == Users ==>
                userSub == Some(|old(listeners)|) && communitySub == old(communitySub)
      ensures text != "" && searchType == Communities ==>
                communitySub == Some(|old(listeners)|) && userSub == old(userSub)
    {
      if text != "" {
        var form := SearchForm(text, searchType, TopAll, 1, 6);
        requests := requests + [SearchRequest(form)];
        var sub := |listeners|;
        listeners := listeners + [Listener(searchType, cb)];
        assert listeners[..|listeners| - 1] == old(listeners);
        if searchType == Users {
          userSub := Some(sub);
        } else {
          communitySub := Some(sub);
        }
      } else {
        answers := answers + [Answer(cb, [])];
      }
    }

    /** An inbound message on the shared stream, offered to this form's listeners in subscription order. */
    method Receive(msg: Message)
      requires Valid()
      modifies this`closed, this`answers
      ensures Valid()
      ensures var d := DeliverFrom(listeners, userSub, communitySub, msg, 0, old(closed));
              closed == d.closed && answers == old(answers) + d.fired
    {
      ghost var total := DeliverFrom(listeners, userSub, communitySub, msg, 0, closed);
      var i := 0;
      while i < |listeners|
        invariant 0 <= i <= |listeners|
        invariant DeliverFrom(listeners, userSub, communitySub, msg, i, closed).closed == total.closed
        invariant answers + DeliverFrom(listeners, userSub, communitySub, msg, i, closed).fired
                  == old(answers) + total.fired
      {
        if i !in closed && msg.op == UserOperation.Search {
          var l := listeners[i];
          answers := answers + [Answer(l.cb, Results(l.searchType, msg))];
          var slot := if l.searchType == Users then userSub else communitySub;
          if slot.Some? {
            closed := closed + {slot.value};
          }
        }
        i := i + 1;
      }
    }
  }
}

/** The profile page (src/app/components/profile/profile.component.ts): the
    account type, the edit form, and the statistics over the user's bookings. */
module ProfileView {
  import opened Wrappers
  import opened Seqs
  import opened Dates
  import opened BookingModel
  import opened UserModel

  // ---------------------------------------------------------------- points

  /** What one booking adds to the amount spent: its price, unless it is cancelled. */
  function Spent(b: Booking): int {
    if b.status == BookingStatus.Cancelled then 0 else b.totalPrice
  }

  /** Emirates points: one point per unit spent on bookings that are not cancelled. */
  function Points(bookings: seq<Booking>): int {
    if bookings == [] then 0 else Spent(bookings[0]) + Points(bookings[1..])
  }

  function SumPrices(bookings: seq<Booking>): int {
    if bookings == [] then 0 else bookings[0].totalPrice + SumPrices(bookings[1..])
  }

  lemma {:induction false} PointsSnoc(bookings: seq<Booking>, b: Booking)
    ensures Points(bookings + [b]) == Points(bookings) + Spent(b)
  {
    if bookings != [] {
      assert (bookings + [b])[1..] == bookings[1..] + [b];
      PointsSnoc(bookings[1..], b);
    } else {
      assert [b][1..] == [];
    }
  }

  /** The points are the total price of the bookings left after dropping the cancelled ones. */
  lemma {:induction false} PointsIgnoreCancelled(bookings: seq<Booking>)
    ensures Points(bookings) == SumPrices(Filter(bookings, (b: Booking) => b.status != BookingStatus.Cancelled))
  {
    if bookings != [] {
      PointsIgnoreCancelled(bookings[1..]);
    }
  }

  /** Cancelling a booking takes exactly its price off the points, once. */
  lemma {:induction false} PointsAfterCancel(bookings: seq<Booking>, k: nat)
    requires k < |bookings|
    ensures Points(bookings[k := bookings[k].(status := BookingStatus.Cancelled)]) == Points(bookings) - Spent(bookings[k])
  {
    var after := bookings[k := bookings[k].(status := BookingStatus.Cancelled)];
    if k == 0 {
      assert after[1..] == bookings[1..];
    } else {
      assert after[1..] == bookings[1..][k - 1 := bookings[k].(status := BookingStatus.Cancelled)];
      PointsAfterCancel(bookings[1..], k - 1);
    }
  }

  /** The forEach loop of loadUserBookings that adds up the amount spent. */
  method TotalSpent(bookings: seq<Booking>) returns (total: int)
    ensures total == Points(bookings)
  {
    total := 0;
    for i := 0 to |bookings|
      invariant total == Points(bookings[..i])
    {
      assert bookings[..i + 1] == bookings[..i] + [bookings[i]];
      PointsSnoc(bookings[..i], bookings[i]);
      if bookings[i].status != BookingStatus.Cancelled {
        total := total + bookings[i].totalPrice;
      }
    }
    assert bookings[..|bookings|] == bookings;
  }

  // ---------------------------------------------------------------- newest first

  /** The order of the profile's sort: no booking is older than one after it. */
  predicate NewestFirst(s: seq<Booking>) {
    forall i, j :: 0 <= i < j < |s| ==> !Before(s[i].bookingDate, s[j].bookingDate)
  }

  /** Puts b in front of the first booking it is not older than. */
  function InsertNewestFirst(b: Booking, s: seq<Booking>): (r: seq<Booking>)
    ensures |r| == |s| + 1
  {
    if s == [] || !Before(b.bookingDate, s[0].bookingDate) then [b] + s
    else [s[0]] + InsertNewestFirst(b, s[1..])
  }

  lemma {:induction false} InsertKeepsBookings(b: Booking, s: seq<Booking>)
    ensures multiset(InsertNewestFirst(b, s)) == multiset(s) + multiset{b}
  {
    if s != [] && Before(b.bookingDate, s[0].bookingDate) {
      assert s == [s[0]] + s[1..];
      InsertKeepsBookings(b, s[1..]);
    }
  }

  lemma {:induction false} InsertKeepsOrder(b: Booking, s: seq<Booking>)
    requires NewestFirst(s)
    ensures NewestFirst(InsertNewestFirst(b, s))
  {
    if s == [] || !Before(b.bookingDate, s[0].bookingDate) {
      forall j | 0 <= j < |s| ensures !Before(b.bookingDate, s[j].bookingDate) {
        if j > 0 { NotBeforeTransitive(b.bookingDate, s[0].bookingDate, s[j].bookingDate); }
      }
    } else {
      var rest := InsertNewestFirst(b, s[1..]);
      InsertKeepsOrder(b, s[1..]);
      InsertKeepsBookings(b, s[1..]);
      BeforeAsymmetric(b.bookingDate, s[0].bookingDate);
      forall j | 0 <= j < |rest| ensures !Before(s[0].bookingDate, rest[j].bookingDate) {
        assert rest[j] in multiset(rest);
        if rest[j] != b {
          assert rest[j] in multiset(s[1..]);
          var m :| 0 <= m < |s[1..]| && s[1..][m] == rest[j];
          assert s[m + 1] == rest[j];
        }
      }
    }
  }

  /** `bookings.sort((a, b) => time(b) - time(a))`: newest first, the same bookings. */
  function SortNewestFirst(s: seq<Booking>): (r: seq<Booking>)
    ensures NewestFirst(r)
    ensures multiset(r) == multiset(s)
    ensures |r| == |s|
  {
    if s == [] then []
    else
      assert s == [s[0]] + s[1..];
      var rest := SortNewestFirst(s[1..]);
      InsertKeepsBookings(s[0], rest);
      InsertKeepsOrder(s[0], rest);
      InsertNewestFirst(s[0], rest)
  }

  /** recentBookings: the first three of the sorted list. */
  function RecentBookings(s: seq<Booking>): (r: seq<Booking>)
    ensures |r| == if |s| < 3 then |s| else 3
    ensures NewestFirst(r)
    ensures r == SortNewestFirst(s)[..|r|]
    ensures multiset(r) <= multiset(s)
  {
    var sorted := SortNewestFirst(s);
    var n := if |s| < 3 then |s| else 3;
    assert sorted == sorted[..n] + sorted[n..];
    sorted[..n]
  }

  /** A booking left out of the recent ones is no newer than any of them. */
  lemma RecentAreNewest(s: seq<Booking>, b: Booking)
    requires multiset(RecentBookings(s))[b] < multiset(s)[b]
    ensures forall i :: 0 <= i < |RecentBookings(s)| ==> !Before(RecentBookings(s)[i].bookingDate, b.bookingDate)
  {
    var sorted, r := SortNewestFirst(s), RecentBookings(s);
    var n := |r|;
    assert sorted == r + sorted[n..];
    assert multiset(sorted) == multiset(r) + multiset(sorted[n..]);
    assert b in multiset(sorted[n..]);
    var m :| n <= m < |sorted| && sorted[m] == b;
  }

  // ---------------------------------------------------------------- account

  datatype EditForm = EditForm(name: string, email: string)

  /** The account type shown for a role. */
  function AccountType(role: UserRole): (kind: string)
    ensures kind == "Administrador" <==> role == Admin
    ensures kind != "Administrador" ==> kind == "Cliente"
  {
    if role == Admin then "Administrador" else "Cliente"
  }

  /** getRoleBadgeClass for the current user, if any. */
  function RoleBadgeClass(user: Option<SessionUser>): string {
    if user.Some? && user.value.role == Admin then "badge bg-danger" else "badge bg-primary"
  }

  /** The badge and the account type split the accounts the same way. */
  lemma BadgeFollowsAccountType(user: SessionUser)
    ensures AccountType(user.role) == "Administrador" <==> user.role == Admin
    ensures RoleBadgeClass(Some(user)) == "badge bg-danger" <==> AccountType(user.role) == "Administrador"
    ensures RoleBadgeClass(None) == "badge bg-primary"
  {
  }

  class ProfileComponent {
    var currentUser: Option<SessionUser>
    var isEditing: bool
    var editForm: EditForm
    var accountType: string
    var userBookings: seq<Booking>
    var totalBookings: int
    var emiratesPoints: int
    var recentBookings: seq<Booking>

    constructor ()
      ensures currentUser == None && !isEditing && editForm == EditForm("", "") && accountType == ""
      ensures userBookings == [] && totalBookings == 0 && emiratesPoints == 0 && recentBookings == []
    {
      currentUser := None;
      isEditing := false;
      editForm := EditForm("", "");
      accountType := "";
      userBookings := [];
      totalBookings := 0;
      emiratesPoints := 0;
      recentBookings := [];
    }

    /** What ngOnInit does when the session reports a user (before the bookings arrive). */
    method ShowUser(user: SessionUser)
      modifies this`currentUser, this`editForm, this`accountType
      ensures currentUser == Some(user)
      ensures editForm == EditForm(user.name, user.email)
      ensures accountType == AccountType(user.role)
    {
      currentUser := Some(user);
      editForm := EditForm(user.name, user.email);
      accountType := AccountType(user.role);
    }

    /** loadUserBookings, once the booking service has answered. The list is
        sorted in place, so userBookings ends up sorted as well. */
    method LoadUserBookings(bookings: seq<Booking>)
      modifies this`userBookings, this`totalBookings, this`emiratesPoints, this`recentBookings
      ensures totalBookings == |bookings|
      ensures emiratesPoints == Points(bookings)
      ensures userBookings == SortNewestFirst(bookings) && multiset(userBookings) == multiset(bookings)
      ensures recentBookings == RecentBookings(bookings) && |recentBookings| <= 3
    {
      userBookings := bookings;
      totalBookings := |bookings|;
      var totalSpent := TotalSpent(bookings);
      emiratesPoints := totalSpent;
      userBookings := SortNewestFirst(userBookings);
      recentBookings := userBookings[..if |userBookings| < 3 then |userBookings| else 3];
    }

    /** toggleEdit: flips editing; leaving it restores the current user's name and email. */
    method ToggleEdit()
      modifies this`isEditing, this`editForm
      ensures isEditing == !old(isEditing)
      ensures editForm == if !isEditing && currentUser.Some?
                          then EditForm(currentUser.value.name, currentUser.value.email)
                          else old(editForm)
    {
      isEditing := !isEditing;
      if !isEditing && currentUser.Some? {
        editForm := EditForm(currentUser.value.name, currentUser.value.email);
      }
    }

    /** saveChanges: only leaves editing (the console and the alert left out). */
    method SaveChanges()
      modifies this`isEditing
      ensures !isEditing
    {
      isEditing := false;
    }

    /** getRoleBadgeClass: red for an administrator, blue otherwise (also with no user). */
    function GetRoleBadgeClass(): (badge: string)
      reads this
      ensures badge == "badge bg-danger" <==> currentUser.Some? && currentUser.value.role == Admin
      ensures badge != "badge bg-danger" ==> badge == "badge bg-primary"
    {
      RoleBadgeClass(currentUser)
    }
  }
}

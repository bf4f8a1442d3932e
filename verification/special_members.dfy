/**
  `ctl::with_copy_move<copy_construct, move_construct, copy_assign, move_assign, tag>`
  (include/ctl/meta/special_members.hpp): an empty primary template plus fifteen
  hand-written partial specializations, one per remaining combination of the
  four flags, each defaulting or deleting the copy and move members; and the two
  helpers built on it, `only_move_members` and `disable_class`.

  A class is modelled by how its body declares each of the six special members,
  and a member is available (the matching `std::is_*_v` trait holds) when it is
  defaulted, or implicitly declared and available in the base.
 */
module SpecialMembers {
  import opened Results

  /** How a class body declares one special member: not at all, `= default` or `= delete`. */
  datatype Decl = Implicit | Defaulted | Deleted

  /** The declarations of the six special members in a class body. */
  datatype ClassDecl = ClassDecl(
    defaultCtor: Decl,
    copyCtor: Decl,
    moveCtor: Decl,
    copyAssign: Decl,
    moveAssign: Decl,
    dtor: Decl)

  /**
    What `std::is_default_constructible_v`, `is_copy_constructible_v`,
    `is_move_constructible_v`, `is_copy_assignable_v`, `is_move_assignable_v`
    and `is_destructible_v` report for a class.
   */
  datatype Traits = Traits(
    defaultConstructible: bool,
    copyConstructible: bool,
    moveConstructible: bool,
    copyAssignable: bool,
    moveAssignable: bool,
    destructible: bool)

  /** The four boolean template arguments of `with_copy_move`. */
  datatype Flags = Flags(copyConstruct: bool, moveConstruct: bool, copyAssign: bool, moveAssign: bool)

  const AllFlags: Flags := Flags(true, true, true, true)

  /** What a class without bases inherits: nothing that could delete a member. */
  const NoBase: Traits := Traits(true, true, true, true, true, true)

  /** The body of the primary template: it declares nothing. */
  const PrimaryBody: ClassDecl := ClassDecl(Implicit, Implicit, Implicit, Implicit, Implicit, Implicit)

  /**
    The body every specialization writes: default constructor, copy constructor,
    move constructor, copy assignment and move assignment, in that order, and no
    destructor.
   */
  function Declares(defaultCtor: Decl, copyCtor: Decl, moveCtor: Decl, copyAssign: Decl, moveAssign: Decl): ClassDecl {
    ClassDecl(defaultCtor, copyCtor, moveCtor, copyAssign, moveAssign, Implicit)
  }

  /**
    The partial specialization of `with_copy_move` that matches `flags`, written
    out in the order of the header, or `None` when only the primary template
    (lines 26-32) matches. Dafny's check that no case of the match is redundant
    and that it is exhaustive is the counterpart of C++ rejecting a duplicate
    specialization and of the primary template catching the rest.
   */
  function Specialize(flags: Flags): (r: Option<ClassDecl>)
    ensures r.None? <==> flags == AllFlags
    ensures r.Some? ==> r.value.defaultCtor == Defaulted && r.value.dtor == Implicit
  {
    match flags
    // lines 34-41
    case Flags(true, true, true, false) => Some(Declares(Defaulted, Defaulted, Defaulted, Defaulted, Deleted))
    // lines 43-50
    case Flags(true, true, false, true) => Some(Declares(Defaulted, Defaulted, Defaulted, Deleted, Defaulted))
    // lines 52-59
    case Flags(true, true, false, false) => Some(Declares(Defaulted, Defaulted, Defaulted, Deleted, Deleted))
    // lines 61-68
    case Flags(true, false, true, true) => Some(Declares(Defaulted, Defaulted, Deleted, Defaulted, Defaulted))
    // lines 70-77
    case Flags(true, false, true, false) => Some(Declares(Defaulted, Defaulted, Deleted, Defaulted, Deleted))
    // lines 79-86
    case Flags(true, false, false, true) => Some(Declares(Defaulted, Defaulted, Deleted, Deleted, Defaulted))
    // lines 88-95
    case Flags(true, false, false, false) => Some(Declares(Defaulted, Defaulted, Deleted, Deleted, Deleted))
    // lines 97-104
    case Flags(false, true, true, true) => Some(Declares(Defaulted, Deleted, Defaulted, Defaulted, Defaulted))
    // lines 106-113
    case Flags(false, true, true, false) => Some(Declares(Defaulted, Deleted, Defaulted, Defaulted, Deleted))
    // lines 115-122
    case Flags(false, true, false, true) => Some(Declares(Defaulted, Deleted, Defaulted, Deleted, Defaulted))
    // lines 124-131
    case Flags(false, true, false, false) => Some(Declares(Defaulted, Deleted, Defaulted, Deleted, Deleted))
    // lines 133-140
    case Flags(false, false, true, true) => Some(Declares(Defaulted, Deleted, Deleted, Defaulted, Defaulted))
    // lines 142-149
    case Flags(false, false, true, false) => Some(Declares(Defaulted, Deleted, Deleted, Defaulted, Deleted))
    // lines 151-158
    case Flags(false, false, false, true) => Some(Declares(Defaulted, Deleted, Deleted, Deleted, Defaulted))
    // lines 160-167
    case Flags(false, false, false, false) => Some(Declares(Defaulted, Deleted, Deleted, Deleted, Deleted))
    case Flags(true, true, true, true) => None
  }

  /**
    The class `with_copy_move<flags..., tag>`: the matching specialization, else
    the primary template. Whatever the flags, the class gets the body they ask
    for, or the empty primary body when all four are set.
   */
  function WithCopyMove(flags: Flags): (c: ClassDecl)
    ensures c == if flags == AllFlags then PrimaryBody else IntendedBody(flags)
  {
    if flags != AllFlags then
      SpecializationsAsIntended(flags);
      Specialize(flags).value
    else
      PrimaryBody
  }

  /** The declaration one flag asks for: `= default` when set, `= delete` otherwise. */
  function FlagDecl(allowed: bool): Decl {
    if allowed then Defaulted else Deleted
  }

  /**
    The body a specialization for `flags` is meant to have: a defaulted default
    constructor, and each copy or move member defaulted exactly when its flag is set.
   */
  function IntendedBody(flags: Flags): ClassDecl {
    Declares(Defaulted, FlagDecl(flags.copyConstruct), FlagDecl(flags.moveConstruct),
             FlagDecl(flags.copyAssign), FlagDecl(flags.moveAssign))
  }

  /** Whether the class body declares the member itself, as `= default` or `= delete`. */
  predicate UserDeclared(d: Decl) {
    d != Implicit
  }

  /**
    Whether a default constructor, copy member or destructor declared `d` can be
    called. `suppressed` says that the language does not declare the member
    implicitly (the default constructor) or declares it as deleted (a copy
    member); `baseOk` says that its defaulted definition, which calls the base's
    member, is not defined as deleted.
   */
  function Usable(d: Decl, suppressed: bool, baseOk: bool): bool {
    match d
    case Deleted => false
    case Defaulted => baseOk
    case Implicit => !suppressed && baseOk
  }

  /**
    Whether an rvalue of the class can be moved (constructed or assigned from)
    through a move member declared `d`. A move member declared `= delete` is
    chosen by overload resolution and fails. One that is not declared
    (`suppressed`), or is defaulted but defined as deleted because the base
    cannot move (`!baseOk`), is ignored, and the rvalue goes to the matching copy
    member instead (`copyUsable`).
   */
  function MoveUsable(d: Decl, suppressed: bool, baseOk: bool, copyUsable: bool): bool {
    match d
    case Deleted => false
    case Defaulted => baseOk || copyUsable
    case Implicit => if suppressed then copyUsable else baseOk || copyUsable
  }

  /**
    The `std::is_*_v` traits of a class with body `c` derived from one base with
    traits `base`, by the rules for implicitly declared special members:
    - a user-declared copy or move constructor suppresses the implicit default constructor;
    - a user-declared move member makes an implicit copy member deleted;
    - a user-declared copy member, other move member or destructor suppresses an
      implicit move member;
    - a defaulted constructor is deleted when the base's matching member, or the
      base's destructor, is unusable; a defaulted assignment or destructor when
      the base's matching member is.
    Nothing the base can do in neither form becomes possible in the class, and a
    member the body deletes is never usable.
   */
  function Members(c: ClassDecl, base: Traits): (t: Traits)
    ensures t.destructible <==> c.dtor != Deleted && base.destructible
    ensures t.defaultConstructible ==> c.defaultCtor != Deleted && base.defaultConstructible && base.destructible
    ensures t.copyConstructible ==> c.copyCtor != Deleted && base.copyConstructible && base.destructible
    ensures t.copyAssignable ==> c.copyAssign != Deleted && base.copyAssignable
    ensures t.moveConstructible ==> c.moveCtor != Deleted && (base.moveConstructible || base.copyConstructible) && base.destructible
    ensures t.moveAssignable ==> c.moveAssign != Deleted && (base.moveAssignable || base.copyAssignable)
  {
    var userCtor := UserDeclared(c.copyCtor) || UserDeclared(c.moveCtor);
    var userMove := UserDeclared(c.moveCtor) || UserDeclared(c.moveAssign);
    var userCopyOrDtor := UserDeclared(c.copyCtor) || UserDeclared(c.copyAssign) || UserDeclared(c.dtor);
    var copyCtor := Usable(c.copyCtor, userMove, base.copyConstructible && base.destructible);
    var copyAssign := Usable(c.copyAssign, userMove, base.copyAssignable);
    Traits(
      Usable(c.defaultCtor, userCtor, base.defaultConstructible && base.destructible),
      copyCtor,
      MoveUsable(c.moveCtor, userCopyOrDtor || UserDeclared(c.moveAssign), base.moveConstructible && base.destructible, copyCtor),
      copyAssign,
      MoveUsable(c.moveAssign, userCopyOrDtor || UserDeclared(c.moveCtor), base.moveAssignable, copyAssign),
      Usable(c.dtor, false, base.destructible))
  }

  /** The traits of `with_copy_move<flags..., tag>` itself. */
  function WithCopyMoveTraits(flags: Flags): Traits {
    Members(WithCopyMove(flags), NoBase)
  }

  /** Every hand-written specialization has the body its flags ask for. */
  lemma SpecializationsAsIntended(flags: Flags)
    requires flags != AllFlags
    ensures Specialize(flags) == Some(IntendedBody(flags))
  {
  }

  /**
    Each flag controls exactly its own member: `with_copy_move` is always default
    constructible and destructible, and copy/move constructible and copy/move
    assignable exactly when the matching flag is set.
   */
  lemma EachFlagControlsItsMember(flags: Flags)
    ensures WithCopyMoveTraits(flags)
         == Traits(true, flags.copyConstruct, flags.moveConstruct, flags.copyAssign, flags.moveAssign, true)
  {
  }

  /** Flipping one flag changes that member's trait and no other. */
  lemma FlipOneFlag(flags: Flags)
    ensures var t := WithCopyMoveTraits(flags);
            WithCopyMoveTraits(flags.(copyConstruct := !flags.copyConstruct))
              == t.(copyConstructible := !t.copyConstructible)
    ensures var t := WithCopyMoveTraits(flags);
            WithCopyMoveTraits(flags.(moveConstruct := !flags.moveConstruct))
              == t.(moveConstructible := !t.moveConstructible)
    ensures var t := WithCopyMoveTraits(flags);
            WithCopyMoveTraits(flags.(copyAssign := !flags.copyAssign))
              == t.(copyAssignable := !t.copyAssignable)
    ensures var t := WithCopyMoveTraits(flags);
            WithCopyMoveTraits(flags.(moveAssign := !flags.moveAssign))
              == t.(moveAssignable := !t.moveAssignable)
  {
    EachFlagControlsItsMember(flags);
    EachFlagControlsItsMember(flags.(copyConstruct := !flags.copyConstruct));
    EachFlagControlsItsMember(flags.(moveConstruct := !flags.moveConstruct));
    EachFlagControlsItsMember(flags.(copyAssign := !flags.copyAssign));
    EachFlagControlsItsMember(flags.(moveAssign := !flags.moveAssign));
  }

  /**
    `only_move_members`: an empty class privately derived from
    `with_copy_move<false, true, false, true, tag>`. It can be moved but not copied.
   */
  function OnlyMoveMembers(): (t: Traits)
    ensures t == WithCopyMoveTraits(Flags(false, true, false, true))
    ensures t == Traits(true, false, true, false, true, true)
  {
    EachFlagControlsItsMember(Flags(false, true, false, true));
    Members(PrimaryBody, WithCopyMoveTraits(Flags(false, true, false, true)))
  }

  /**
    `disable_class`: derived from `with_copy_move<false, false, false, false, tag>`
    and deleting its own default constructor and destructor. The deleted
    destructor is user-declared, so the move members are not declared at all and
    an rvalue goes to the copy members, which the base's deleted copies make
    deleted. None of the six special members is available.
   */
  function DisableClass(): (t: Traits)
    ensures !t.defaultConstructible && !t.destructible
    ensures !t.copyConstructible && !t.moveConstructible
    ensures !t.copyAssignable && !t.moveAssignable
  {
    EachFlagControlsItsMember(Flags(false, false, false, false));
    Members(ClassDecl(Deleted, Implicit, Implicit, Implicit, Implicit, Deleted),
            WithCopyMoveTraits(Flags(false, false, false, false)))
  }

  /**
    A class that declares no special member mirrors its base, except that an
    rvalue the base cannot move is still copied: the defaulted move member is
    defined as deleted and gives way to the copy member.
   */
  lemma EmptyBodyInherits(base: Traits)
    ensures Members(PrimaryBody, base)
         == Traits(base.defaultConstructible && base.destructible,
                   base.copyConstructible && base.destructible,
                   (base.moveConstructible || base.copyConstructible) && base.destructible,
                   base.copyAssignable,
                   base.moveAssignable || base.copyAssignable,
                   base.destructible)
  {
  }

  /**
    A class with an empty body privately derived from `with_copy_move<flags...>`
    copies exactly as the flags say, and moves whenever it can move or copy.
   */
  lemma DerivedClassTraits(flags: Flags)
    ensures Members(PrimaryBody, WithCopyMoveTraits(flags))
         == Traits(true, flags.copyConstruct, flags.moveConstruct || flags.copyConstruct,
                   flags.copyAssign, flags.moveAssign || flags.copyAssign, true)
  {
    EachFlagControlsItsMember(flags);
    EmptyBodyInherits(WithCopyMoveTraits(flags));
  }

  /**
    A user-declared destructor or copy member keeps an undeclared move member
    from being declared: the class moves exactly when it copies.
   */
  lemma DeclaredCopyOrDestructorSuppressesMoves(c: ClassDecl, base: Traits)
    requires UserDeclared(c.dtor) || UserDeclared(c.copyCtor) || UserDeclared(c.copyAssign)
    ensures c.moveCtor == Implicit ==> Members(c, base).moveConstructible == Members(c, base).copyConstructible
    ensures c.moveAssign == Implicit ==> Members(c, base).moveAssignable == Members(c, base).copyAssignable
  {
  }

  /**
    A defaulted destructor is enough to make a move-only base's derived class
    immovable: without it the class moves, with it the rvalue goes to the
    deleted copy constructor.
   */
  lemma DefaultedDestructorBlocksMove()
    ensures Members(PrimaryBody, OnlyMoveMembers()).moveConstructible
    ensures !Members(PrimaryBody.(dtor := Defaulted), OnlyMoveMembers()).moveConstructible
  {
    DeclaredCopyOrDestructorSuppressesMoves(PrimaryBody.(dtor := Defaulted), OnlyMoveMembers());
  }

  /** A user-declared move member makes every copy member the body leaves undeclared deleted. */
  lemma DeclaredMoveDeletesImplicitCopies(c: ClassDecl, base: Traits)
    requires UserDeclared(c.moveCtor) || UserDeclared(c.moveAssign)
    ensures c.copyCtor == Implicit ==> !Members(c, base).copyConstructible
    ensures c.copyAssign == Implicit ==> !Members(c, base).copyAssignable
  {
  }

  /** A user-declared copy or move constructor suppresses the implicit default constructor. */
  lemma DeclaredConstructorSuppressesDefault(c: ClassDecl, base: Traits)
    requires UserDeclared(c.copyCtor) || UserDeclared(c.moveCtor)
    ensures c.defaultCtor == Implicit ==> !Members(c, base).defaultConstructible
  {
  }

  /**
    An empty class derived from `disable_class` is disabled too, while one
    without that base has every special member.
   */
  lemma DisableClassTester()
    ensures Members(PrimaryBody, DisableClass()) == Traits(false, false, false, false, false, false)
    ensures Members(PrimaryBody, NoBase) == NoBase
  {
    EmptyBodyInherits(DisableClass());
  }
}

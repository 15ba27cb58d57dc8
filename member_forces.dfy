/** Internal forces of the three members of the portal frame, read off from
    the statics of the whole frame (not from the displacements). */
module MemberForces {
  import opened Outcomes

  datatype Member = LeftColumn | TopBeam | RightColumn

  /** Axial force N, shear force V and bending moment M of one member. */
  datatype Forces = Forces(axial: real, shear: real, moment: real)

  /** The forces shown for member `m` under the horizontal load `load` on a
      frame of column height `height`: each column takes half the load as
      shear with the base moment V·H; the beam carries the load axially. */
  function Recover(m: Member, load: real, height: real): (f: Forces)
    ensures m.TopBeam? ==> f.axial == load && f.shear == 0.0 && f.moment == 0.0
    ensures !m.TopBeam? ==> f.axial == 0.0 && 2.0 * f.shear == load && f.moment == f.shear * height
  {
    match m
    case LeftColumn =>
      var v := load / 2.0;
      Forces(0.0, v, v * height)
    case TopBeam => Forces(load, 0.0, 0.0)
    case RightColumn =>
      var v := load / 2.0;
      Forces(0.0, v, v * height)
  }

  /** The two columns, symmetric by construction, give identical forces. */
  lemma ColumnsAgree(load: real, height: real)
    ensures Recover(LeftColumn, load, height) == Recover(RightColumn, load, height)
    ensures Recover(LeftColumn, load, height) == Forces(0.0, load / 2.0, load * height / 2.0)
  {
  }

  /** The frame as a whole is in equilibrium: the column shears balance the
      load, the column axial forces cancel, and the two base moments balance
      the overturning moment load·H. */
  lemma FrameEquilibrium(load: real, height: real)
    ensures Recover(LeftColumn, load, height).shear + Recover(RightColumn, load, height).shear == load
    ensures Recover(LeftColumn, load, height).axial + Recover(RightColumn, load, height).axial == 0.0
    ensures Recover(LeftColumn, load, height).moment + Recover(RightColumn, load, height).moment == load * height
  {
  }

  /** The languages in which the pages label the members. */
  datatype Locale = German | Indonesian

  /** The option text the selector shows for each member. */
  function Label(loc: Locale, m: Member): string {
    match (loc, m)
    case (German, LeftColumn) => "1. Linke Stütze"
    case (German, TopBeam) => "2. Oberer Balken"
    case (German, RightColumn) => "3. Rechte Stütze"
    case (Indonesian, LeftColumn) => "1. Kolom Kiri"
    case (Indonesian, TopBeam) => "2. Balok Atas"
    case (Indonesian, RightColumn) => "3. Kolom Kanan"
  }

  /** The member whose branch of the selection cascade a chosen option
      enters, or None when no branch matches (no forces are shown). */
  function Select(loc: Locale, choice: string): (r: Option<Member>)
    ensures r.Some? ==> Label(loc, r.value) == choice
    ensures r.None? ==> forall m: Member :: Label(loc, m) != choice
  {
    if choice == Label(loc, LeftColumn) then Some(LeftColumn)
    else if choice == Label(loc, TopBeam) then Some(TopBeam)
    else if choice == Label(loc, RightColumn) then Some(RightColumn)
    else None
  }

  /** Different members carry different labels. */
  lemma LabelInjective(loc: Locale, m: Member, n: Member)
    requires Label(loc, m) == Label(loc, n)
    ensures m == n
  {
  }

  /** Every offered option selects its own member. */
  lemma SelectLabel(loc: Locale, m: Member)
    ensures Select(loc, Label(loc, m)) == Some(m)
  {
  }
}

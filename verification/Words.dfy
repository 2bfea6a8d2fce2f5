/** A bit-mask register as the set of its bit numbers: & is intersection, | is
    union, & with a complement is difference, ^ is symmetric difference, and
    testing a single-bit mask is membership. */
module Words {
  type Word = set<nat>

  function Xor(a: Word, b: Word): Word { (a - b) + (b - a) }
}

/** The format and version words against the tables of the standard. */
module CheckWords {
  import opened Matrix

  lemma RaiseOnce(word: bv32, n: nat)
    ensures Raised(word, n + 1) == Raised(word, n) << 1 && Raised(word, 0) == word
  {
  }

  lemma ReduceOnce(bits: bv32, i: nat, low: nat, generator: bv32)
    requires low <= i < 32
    ensures Reduce(bits, i, low, generator)
         == Reduce(Cut(bits, Raised(1, i), Raised(generator, i - low)), i - 1, low, generator)
  {
    hide Raised, Cut;
  }

  lemma Powers()
    ensures Raised(1, 10) == 0x400 && Raised(1, 11) == 0x800 && Raised(1, 12) == 0x1000
    ensures Raised(1, 13) == 0x2000 && Raised(1, 14) == 0x4000 && Raised(1, 15) == 0x8000
    ensures Raised(1, 16) == 0x10000 && Raised(1, 17) == 0x20000
  {
    hide Raised;
    RaiseOnce(1, 0); RaiseOnce(1, 1); RaiseOnce(1, 2); RaiseOnce(1, 3);
    RaiseOnce(1, 4); RaiseOnce(1, 5); RaiseOnce(1, 6); RaiseOnce(1, 7);
    RaiseOnce(1, 8); RaiseOnce(1, 9); RaiseOnce(1, 10); RaiseOnce(1, 11);
    RaiseOnce(1, 12); RaiseOnce(1, 13); RaiseOnce(1, 14); RaiseOnce(1, 15);
    RaiseOnce(1, 16);
  }

  /** What bit i is worth. */
  function Worth(i: nat): bv32 {
    if i < 6 then
      if i == 0 then 0x1 else if i == 1 then 0x2 else if i == 2 then 0x4
      else if i == 3 then 0x8 else if i == 4 then 0x10 else 0x20
    else if i < 12 then
      if i == 6 then 0x40 else if i == 7 then 0x80 else if i == 8 then 0x100
      else if i == 9 then 0x200 else if i == 10 then 0x400 else 0x800
    else
      if i == 12 then 0x1000 else if i == 13 then 0x2000 else if i == 14 then 0x4000
      else if i == 15 then 0x8000 else if i == 16 then 0x10000 else 0x20000
  }

  /** The bits of format and version words are numbered from the least significant on. */
  lemma WordBitIs(word: bv32, i: nat)
    requires i < 18
    ensures WordBit(word, i) <==> word & Worth(i) != 0
  {
    WorthIs(i);
    hide Raised, Worth;
  }

  lemma WorthIs(i: nat)
    requires i < 18
    ensures Raised(1, i) == Worth(i)
  {
    hide Raised;
    Powers();
    SmallPowers();
  }

  lemma SmallPowers()
    ensures Raised(1, 0) == 0x1 && Raised(1, 1) == 0x2 && Raised(1, 2) == 0x4 && Raised(1, 3) == 0x8 && Raised(1, 4) == 0x10
    ensures Raised(1, 5) == 0x20 && Raised(1, 6) == 0x40 && Raised(1, 7) == 0x80 && Raised(1, 8) == 0x100 && Raised(1, 9) == 0x200
  {
    hide Raised;
    RaiseOnce(1, 0); RaiseOnce(1, 1); RaiseOnce(1, 2); RaiseOnce(1, 3); RaiseOnce(1, 4);
    RaiseOnce(1, 5); RaiseOnce(1, 6); RaiseOnce(1, 7); RaiseOnce(1, 8);
  }

  lemma Generators()
    ensures Raised(0x537, 1) == 0xA6E && Raised(0x537, 2) == 0x14DC && Raised(0x537, 3) == 0x29B8
    ensures Raised(0x537, 4) == 0x5370 && Raised(0x537, 0) == 0x537
    ensures Raised(0x1F25, 1) == 0x3E4A && Raised(0x1F25, 2) == 0x7C94 && Raised(0x1F25, 3) == 0xF928
    ensures Raised(0x1F25, 4) == 0x1F250 && Raised(0x1F25, 5) == 0x3E4A0 && Raised(0x1F25, 0) == 0x1F25
  {
    hide Raised;
    RaiseOnce(0x537, 0); RaiseOnce(0x537, 1); RaiseOnce(0x537, 2); RaiseOnce(0x537, 3);
    RaiseOnce(0x1F25, 0); RaiseOnce(0x1F25, 1); RaiseOnce(0x1F25, 2); RaiseOnce(0x1F25, 3);
    RaiseOnce(0x1F25, 4);
  }

  lemma ReduceDone(bits: bv32, low: nat, generator: bv32)
    requires 0 < low <= 32
    ensures Reduce(bits, low - 1, low, generator) == bits
  {
  }

  /** The five steps of the format division. */
  function FormatSteps(bits: bv32): bv32 {
    Cut(Cut(Cut(Cut(Cut(bits, 0x4000, 0x5370), 0x2000, 0x29B8), 0x1000, 0x14DC), 0x800, 0xA6E), 0x400, 0x537)
  }

  /** The six steps of the version division. */
  function VersionSteps(bits: bv32): bv32 {
    Cut(Cut(Cut(Cut(Cut(Cut(bits, 0x20000, 0x3E4A0), 0x10000, 0x1F250), 0x8000, 0xF928), 0x4000, 0x7C94),
            0x2000, 0x3E4A), 0x1000, 0x1F25)
  }

  lemma FormatDivision(bits: bv32)
    ensures Reduce(bits, 14, 10, 0x537) == FormatSteps(bits)
  {
    Powers();
    Generators();
    hide Reduce, Raised, Cut;
    var a := Cut(bits, 0x4000, 0x5370);
    var b := Cut(a, 0x2000, 0x29B8);
    var c := Cut(b, 0x1000, 0x14DC);
    var d := Cut(c, 0x800, 0xA6E);
    ReduceOnce(bits, 14, 10, 0x537);
    ReduceOnce(a, 13, 10, 0x537);
    ReduceOnce(b, 12, 10, 0x537);
    ReduceOnce(c, 11, 10, 0x537);
    ReduceOnce(d, 10, 10, 0x537);
    ReduceDone(Cut(d, 0x400, 0x537), 10, 0x537);
  }

  lemma VersionDivision(bits: bv32)
    ensures Reduce(bits, 17, 12, 0x1F25) == VersionSteps(bits)
  {
    Powers();
    Generators();
    hide Reduce, Raised, Cut;
    var a := Cut(bits, 0x20000, 0x3E4A0);
    var b := Cut(a, 0x10000, 0x1F250);
    var c := Cut(b, 0x8000, 0xF928);
    var d := Cut(c, 0x4000, 0x7C94);
    var e := Cut(d, 0x2000, 0x3E4A);
    ReduceOnce(bits, 17, 12, 0x1F25);
    ReduceOnce(a, 16, 12, 0x1F25);
    ReduceOnce(b, 15, 12, 0x1F25);
    ReduceOnce(c, 14, 12, 0x1F25);
    ReduceOnce(d, 13, 12, 0x1F25);
    ReduceOnce(e, 12, 12, 0x1F25);
    ReduceDone(Cut(e, 0x1000, 0x1F25), 12, 0x1F25);
  }

  lemma {:induction false} RaiseTwice(word: bv32, n: nat, k: nat, middle: bv32)
    requires Raised(word, n) == middle
    ensures Raised(word, n + k) == Raised(middle, k)
  {
    if k > 0 {
      RaiseTwice(word, n, k - 1, middle);
    }
  }

  lemma RaisedBy2(word: bv32)
    ensures Raised(word, 2) == word << 2
  {
    RaiseOnce(word, 0);
    RaiseOnce(word, 1);
  }

  lemma RaisedBy4(word: bv32)
    ensures Raised(word, 4) == word << 4
  {
    RaisedBy2(word);
    RaiseTwice(word, 2, 2, word << 2);
    RaisedBy2(word << 2);
    hide Raised;
    assert word << 2 << 2 == word << 4;
  }

  lemma RaisedBy8(word: bv32)
    ensures Raised(word, 8) == word << 8
  {
    RaisedBy4(word);
    RaiseTwice(word, 4, 4, word << 4);
    RaisedBy4(word << 4);
    hide Raised;
    assert word << 4 << 4 == word << 8;
  }

  lemma RaisedBy10(word: bv32)
    ensures Raised(word, 10) == word << 10
  {
    RaisedBy8(word);
    RaiseTwice(word, 8, 2, word << 8);
    RaisedBy2(word << 8);
    hide Raised;
    assert word << 8 << 2 == word << 10;
  }

  lemma RaisedBy12(word: bv32)
    ensures Raised(word, 12) == word << 12
  {
    RaisedBy8(word);
    RaiseTwice(word, 8, 4, word << 8);
    RaisedBy4(word << 8);
    hide Raised;
    assert word << 8 << 4 == word << 12;
  }

  /** Table C.1 of ISO/IEC 18004, level M. */
  function FormatTable(mask: nat): bv32
    requires mask < 8
  {
    if mask < 4 then (if mask < 2 then (if mask == 0 then 0x5412 else 0x5125) else (if mask == 2 then 0x5E7C else 0x5B4B))
    else (if mask < 6 then (if mask == 4 then 0x45F9 else 0x40CE) else (if mask == 6 then 0x4F97 else 0x4AA0))
  }

  /** Table D.1 of ISO/IEC 18004, versions 7 to 20. */
  function VersionTable(version: nat): bv32
    requires 7 <= version <= 20
  {
    if version < 14 then
      if version < 10 then (if version == 7 then 0x07C94 else if version == 8 then 0x085BC else 0x09A99)
      else (if version == 10 then 0x0A4D3 else if version == 11 then 0x0BBF6 else if version == 12 then 0x0C762 else 0x0D847)
    else
      if version < 17 then (if version == 14 then 0x0E60D else if version == 15 then 0x0F928 else 0x10B78)
      else (if version == 17 then 0x1145D else if version == 18 then 0x12A17 else if version == 19 then 0x13532 else 0x149A6)
  }

  /** The long division gives the words of the table. */
  lemma FormatWords(mask: nat)
    requires mask < 8
    ensures FormatWord(mask) == FormatTable(mask)
  {
    var data := MaskWord(mask);
    FormatDivision(data << 10);
    RaisedBy10(data);
    hide Raised, Reduce;
  }

  lemma VersionWordIs(version: nat, data: bv32)
    requires version < 32 && version as bv32 == data
    ensures VersionWord(version) == (data << 12) | VersionSteps(data << 12)
  {
    VersionDivision(data << 12);
    RaisedBy12(data);
    hide Raised, Reduce, VersionSteps;
  }

  lemma EarlyCodes()
    ensures 0x7000 | VersionSteps(0x7000) == 0x07C94
    ensures 0x8000 | VersionSteps(0x8000) == 0x085BC
    ensures 0x9000 | VersionSteps(0x9000) == 0x09A99
    ensures 0xA000 | VersionSteps(0xA000) == 0x0A4D3
  {
  }

  lemma EarlyVersions(version: nat)
    requires 7 <= version < 11
    ensures VersionWord(version) == VersionTable(version)
  {
    EarlyCodes();
    hide VersionWord, VersionSteps;
    if version == 7 {
      VersionWordIs(7, 7);
    } else if version == 8 {
      VersionWordIs(8, 8);
    } else if version == 9 {
      VersionWordIs(9, 9);
    } else {
      VersionWordIs(10, 10);
    }
  }

  lemma MiddleCodes()
    ensures 0xB000 | VersionSteps(0xB000) == 0x0BBF6
    ensures 0xC000 | VersionSteps(0xC000) == 0x0C762
    ensures 0xD000 | VersionSteps(0xD000) == 0x0D847
    ensures 0xE000 | VersionSteps(0xE000) == 0x0E60D
    ensures 0xF000 | VersionSteps(0xF000) == 0x0F928
  {
  }

  lemma MiddleVersions(version: nat)
    requires 11 <= version < 16
    ensures VersionWord(version) == VersionTable(version)
  {
    MiddleCodes();
    hide VersionWord, VersionSteps;
    if version == 11 {
      VersionWordIs(11, 11);
    } else if version == 12 {
      VersionWordIs(12, 12);
    } else if version == 13 {
      VersionWordIs(13, 13);
    } else if version == 14 {
      VersionWordIs(14, 14);
    } else {
      VersionWordIs(15, 15);
    }
  }

  lemma LateCodes()
    ensures 0x10000 | VersionSteps(0x10000) == 0x10B78
    ensures 0x11000 | VersionSteps(0x11000) == 0x1145D
    ensures 0x12000 | VersionSteps(0x12000) == 0x12A17
    ensures 0x13000 | VersionSteps(0x13000) == 0x13532
    ensures 0x14000 | VersionSteps(0x14000) == 0x149A6
  {
  }

  lemma LateVersions(version: nat)
    requires 16 <= version < 21
    ensures VersionWord(version) == VersionTable(version)
  {
    LateCodes();
    hide VersionWord, VersionSteps;
    if version == 16 {
      VersionWordIs(16, 16);
    } else if version == 17 {
      VersionWordIs(17, 17);
    } else if version == 18 {
      VersionWordIs(18, 18);
    } else if version == 19 {
      VersionWordIs(19, 19);
    } else {
      VersionWordIs(20, 20);
    }
  }

  lemma VersionWords(version: nat)
    requires 7 <= version <= 20
    ensures VersionWord(version) == VersionTable(version)
  {
    hide *;
    if version < 11 {
      EarlyVersions(version);
    } else if version < 16 {
      MiddleVersions(version);
    } else {
      LateVersions(version);
    }
  }
}

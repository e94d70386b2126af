/**
 * The bit-serial CRC-16/MODBUS of Modbus over Serial Line V1.02, section
 * 6.2.2 (shift right, xor 0xA001 when the shifted-out bit is 1, eight
 * shifts per byte), and the proof that the table-driven implementation
 * computes it.
 */
module CrcReference {
  import opened Bytes
  import opened Crc

  /**
   * The polynomial 0xA001 when the least significant bit is set, else nothing:
   * `0 - (x & 1)` is all ones or all zeros, and masks the polynomial.
   */
  function Feedback(x: bv16): (r: bv16)
    ensures r == if x & 1 == 1 then 0xA001 else 0
  {
    (0 - (x & 1)) & 0xA001
  }

  /** One shift of the bit-serial algorithm: shift right, xor 0xA001 when the LSB was set. */
  function ShiftRound(x: bv16): bv16 {
    (x >> 1) ^ Feedback(x)
  }

  /** `n` shifts in a row. */
  function ShiftRounds(x: bv16, n: nat): bv16 {
    if n == 0 then x else ShiftRound(ShiftRounds(x, n - 1))
  }

  /** Eight shifts: the contribution of one byte. */
  function ShiftByte(x: bv16): bv16 {
    ShiftRound(ShiftRound(ShiftRound(ShiftRound(ShiftRound(ShiftRound(ShiftRound(ShiftRound(x))))))))
  }

  /** The eight nested shifts are eight rounds. */
  lemma ShiftByteRounds(x: bv16)
    ensures ShiftByte(x) == ShiftRounds(x, 8)
  {
    assert ShiftRounds(x, 1) == ShiftRound(x);
    assert ShiftRounds(x, 2) == ShiftRound(ShiftRounds(x, 1));
    assert ShiftRounds(x, 3) == ShiftRound(ShiftRounds(x, 2));
    assert ShiftRounds(x, 4) == ShiftRound(ShiftRounds(x, 3));
    assert ShiftRounds(x, 5) == ShiftRound(ShiftRounds(x, 4));
    assert ShiftRounds(x, 6) == ShiftRound(ShiftRounds(x, 5));
    assert ShiftRounds(x, 7) == ShiftRound(ShiftRounds(x, 6));
  }

  /** Exclusive or, named so that the linearity lemmas below are stated on whole terms. */
  function Xor(a: bv16, b: bv16): bv16 {
    a ^ b
  }

  /** The bit-serial CRC of the standard over a whole message. */
  function BitwiseCrc(data: seq<uint8>): bv16 {
    if data == [] then 0xFFFF
    else ShiftByte(Xor(BitwiseCrc(data[..|data| - 1]), Widen(data[|data| - 1])))
  }

  // One lemma per row of the table: each row is checked on literals.

  lemma Row0()
    ensures CrcTable(0) == ShiftByte(0) && CrcTable(1) == ShiftByte(1) && CrcTable(2) == ShiftByte(2) && CrcTable(3) == ShiftByte(3) && CrcTable(4) == ShiftByte(4) && CrcTable(5) == ShiftByte(5) && CrcTable(6) == ShiftByte(6) && CrcTable(7) == ShiftByte(7)
  {
  }

  lemma Row1()
    ensures CrcTable(8) == ShiftByte(8) && CrcTable(9) == ShiftByte(9) && CrcTable(10) == ShiftByte(10) && CrcTable(11) == ShiftByte(11) && CrcTable(12) == ShiftByte(12) && CrcTable(13) == ShiftByte(13) && CrcTable(14) == ShiftByte(14) && CrcTable(15) == ShiftByte(15)
  {
  }

  lemma Row2()
    ensures CrcTable(16) == ShiftByte(16) && CrcTable(17) == ShiftByte(17) && CrcTable(18) == ShiftByte(18) && CrcTable(19) == ShiftByte(19) && CrcTable(20) == ShiftByte(20) && CrcTable(21) == ShiftByte(21) && CrcTable(22) == ShiftByte(22) && CrcTable(23) == ShiftByte(23)
  {
  }

  lemma Row3()
    ensures CrcTable(24) == ShiftByte(24) && CrcTable(25) == ShiftByte(25) && CrcTable(26) == ShiftByte(26) && CrcTable(27) == ShiftByte(27) && CrcTable(28) == ShiftByte(28) && CrcTable(29) == ShiftByte(29) && CrcTable(30) == ShiftByte(30) && CrcTable(31) == ShiftByte(31)
  {
  }

  lemma Row4()
    ensures CrcTable(32) == ShiftByte(32) && CrcTable(33) == ShiftByte(33) && CrcTable(34) == ShiftByte(34) && CrcTable(35) == ShiftByte(35) && CrcTable(36) == ShiftByte(36) && CrcTable(37) == ShiftByte(37) && CrcTable(38) == ShiftByte(38) && CrcTable(39) == ShiftByte(39)
  {
  }

  lemma Row5()
    ensures CrcTable(40) == ShiftByte(40) && CrcTable(41) == ShiftByte(41) && CrcTable(42) == ShiftByte(42) && CrcTable(43) == ShiftByte(43) && CrcTable(44) == ShiftByte(44) && CrcTable(45) == ShiftByte(45) && CrcTable(46) == ShiftByte(46) && CrcTable(47) == ShiftByte(47)
  {
  }

  lemma Row6()
    ensures CrcTable(48) == ShiftByte(48) && CrcTable(49) == ShiftByte(49) && CrcTable(50) == ShiftByte(50) && CrcTable(51) == ShiftByte(51) && CrcTable(52) == ShiftByte(52) && CrcTable(53) == ShiftByte(53) && CrcTable(54) == ShiftByte(54) && CrcTable(55) == ShiftByte(55)
  {
  }

  lemma Row7()
    ensures CrcTable(56) == ShiftByte(56) && CrcTable(57) == ShiftByte(57) && CrcTable(58) == ShiftByte(58) && CrcTable(59) == ShiftByte(59) && CrcTable(60) == ShiftByte(60) && CrcTable(61) == ShiftByte(61) && CrcTable(62) == ShiftByte(62) && CrcTable(63) == ShiftByte(63)
  {
  }

  lemma Row8()
    ensures CrcTable(64) == ShiftByte(64) && CrcTable(65) == ShiftByte(65) && CrcTable(66) == ShiftByte(66) && CrcTable(67) == ShiftByte(67) && CrcTable(68) == ShiftByte(68) && CrcTable(69) == ShiftByte(69) && CrcTable(70) == ShiftByte(70) && CrcTable(71) == ShiftByte(71)
  {
  }

  lemma Row9()
    ensures CrcTable(72) == ShiftByte(72) && CrcTable(73) == ShiftByte(73) && CrcTable(74) == ShiftByte(74) && CrcTable(75) == ShiftByte(75) && CrcTable(76) == ShiftByte(76) && CrcTable(77) == ShiftByte(77) && CrcTable(78) == ShiftByte(78) && CrcTable(79) == ShiftByte(79)
  {
  }

  lemma Row10()
    ensures CrcTable(80) == ShiftByte(80) && CrcTable(81) == ShiftByte(81) && CrcTable(82) == ShiftByte(82) && CrcTable(83) == ShiftByte(83) && CrcTable(84) == ShiftByte(84) && CrcTable(85) == ShiftByte(85) && CrcTable(86) == ShiftByte(86) && CrcTable(87) == ShiftByte(87)
  {
  }

  lemma Row11()
    ensures CrcTable(88) == ShiftByte(88) && CrcTable(89) == ShiftByte(89) && CrcTable(90) == ShiftByte(90) && CrcTable(91) == ShiftByte(91) && CrcTable(92) == ShiftByte(92) && CrcTable(93) == ShiftByte(93) && CrcTable(94) == ShiftByte(94) && CrcTable(95) == ShiftByte(95)
  {
  }

  lemma Row12()
    ensures CrcTable(96) == ShiftByte(96) && CrcTable(97) == ShiftByte(97) && CrcTable(98) == ShiftByte(98) && CrcTable(99) == ShiftByte(99) && CrcTable(100) == ShiftByte(100) && CrcTable(101) == ShiftByte(101) && CrcTable(102) == ShiftByte(102) && CrcTable(103) == ShiftByte(103)
  {
  }

  lemma Row13()
    ensures CrcTable(104) == ShiftByte(104) && CrcTable(105) == ShiftByte(105) && CrcTable(106) == ShiftByte(106) && CrcTable(107) == ShiftByte(107) && CrcTable(108) == ShiftByte(108) && CrcTable(109) == ShiftByte(109) && CrcTable(110) == ShiftByte(110) && CrcTable(111) == ShiftByte(111)
  {
  }

  lemma Row14()
    ensures CrcTable(112) == ShiftByte(112) && CrcTable(113) == ShiftByte(113) && CrcTable(114) == ShiftByte(114) && CrcTable(115) == ShiftByte(115) && CrcTable(116) == ShiftByte(116) && CrcTable(117) == ShiftByte(117) && CrcTable(118) == ShiftByte(118) && CrcTable(119) == ShiftByte(119)
  {
  }

  lemma Row15()
    ensures CrcTable(120) == ShiftByte(120) && CrcTable(121) == ShiftByte(121) && CrcTable(122) == ShiftByte(122) && CrcTable(123) == ShiftByte(123) && CrcTable(124) == ShiftByte(124) && CrcTable(125) == ShiftByte(125) && CrcTable(126) == ShiftByte(126) && CrcTable(127) == ShiftByte(127)
  {
  }

  lemma Row16()
    ensures CrcTable(128) == ShiftByte(128) && CrcTable(129) == ShiftByte(129) && CrcTable(130) == ShiftByte(130) && CrcTable(131) == ShiftByte(131) && CrcTable(132) == ShiftByte(132) && CrcTable(133) == ShiftByte(133) && CrcTable(134) == ShiftByte(134) && CrcTable(135) == ShiftByte(135)
  {
  }

  lemma Row17()
    ensures CrcTable(136) == ShiftByte(136) && CrcTable(137) == ShiftByte(137) && CrcTable(138) == ShiftByte(138) && CrcTable(139) == ShiftByte(139) && CrcTable(140) == ShiftByte(140) && CrcTable(141) == ShiftByte(141) && CrcTable(142) == ShiftByte(142) && CrcTable(143) == ShiftByte(143)
  {
  }

  lemma Row18()
    ensures CrcTable(144) == ShiftByte(144) && CrcTable(145) == ShiftByte(145) && CrcTable(146) == ShiftByte(146) && CrcTable(147) == ShiftByte(147) && CrcTable(148) == ShiftByte(148) && CrcTable(149) == ShiftByte(149) && CrcTable(150) == ShiftByte(150) && CrcTable(151) == ShiftByte(151)
  {
  }

  lemma Row19()
    ensures CrcTable(152) == ShiftByte(152) && CrcTable(153) == ShiftByte(153) && CrcTable(154) == ShiftByte(154) && CrcTable(155) == ShiftByte(155) && CrcTable(156) == ShiftByte(156) && CrcTable(157) == ShiftByte(157) && CrcTable(158) == ShiftByte(158) && CrcTable(159) == ShiftByte(159)
  {
  }

  lemma Row20()
    ensures CrcTable(160) == ShiftByte(160) && CrcTable(161) == ShiftByte(161) && CrcTable(162) == ShiftByte(162) && CrcTable(163) == ShiftByte(163) && CrcTable(164) == ShiftByte(164) && CrcTable(165) == ShiftByte(165) && CrcTable(166) == ShiftByte(166) && CrcTable(167) == ShiftByte(167)
  {
  }

  lemma Row21()
    ensures CrcTable(168) == ShiftByte(168) && CrcTable(169) == ShiftByte(169) && CrcTable(170) == ShiftByte(170) && CrcTable(171) == ShiftByte(171) && CrcTable(172) == ShiftByte(172) && CrcTable(173) == ShiftByte(173) && CrcTable(174) == ShiftByte(174) && CrcTable(175) == ShiftByte(175)
  {
  }

  lemma Row22()
    ensures CrcTable(176) == ShiftByte(176) && CrcTable(177) == ShiftByte(177) && CrcTable(178) == ShiftByte(178) && CrcTable(179) == ShiftByte(179) && CrcTable(180) == ShiftByte(180) && CrcTable(181) == ShiftByte(181) && CrcTable(182) == ShiftByte(182) && CrcTable(183) == ShiftByte(183)
  {
  }

  lemma Row23()
    ensures CrcTable(184) == ShiftByte(184) && CrcTable(185) == ShiftByte(185) && CrcTable(186) == ShiftByte(186) && CrcTable(187) == ShiftByte(187) && CrcTable(188) == ShiftByte(188) && CrcTable(189) == ShiftByte(189) && CrcTable(190) == ShiftByte(190) && CrcTable(191) == ShiftByte(191)
  {
  }

  lemma Row24()
    ensures CrcTable(192) == ShiftByte(192) && CrcTable(193) == ShiftByte(193) && CrcTable(194) == ShiftByte(194) && CrcTable(195) == ShiftByte(195) && CrcTable(196) == ShiftByte(196) && CrcTable(197) == ShiftByte(197) && CrcTable(198) == ShiftByte(198) && CrcTable(199) == ShiftByte(199)
  {
  }

  lemma Row25()
    ensures CrcTable(200) == ShiftByte(200) && CrcTable(201) == ShiftByte(201) && CrcTable(202) == ShiftByte(202) && CrcTable(203) == ShiftByte(203) && CrcTable(204) == ShiftByte(204) && CrcTable(205) == ShiftByte(205) && CrcTable(206) == ShiftByte(206) && CrcTable(207) == ShiftByte(207)
  {
  }

  lemma Row26()
    ensures CrcTable(208) == ShiftByte(208) && CrcTable(209) == ShiftByte(209) && CrcTable(210) == ShiftByte(210) && CrcTable(211) == ShiftByte(211) && CrcTable(212) == ShiftByte(212) && CrcTable(213) == ShiftByte(213) && CrcTable(214) == ShiftByte(214) && CrcTable(215) == ShiftByte(215)
  {
  }

  lemma Row27()
    ensures CrcTable(216) == ShiftByte(216) && CrcTable(217) == ShiftByte(217) && CrcTable(218) == ShiftByte(218) && CrcTable(219) == ShiftByte(219) && CrcTable(220) == ShiftByte(220) && CrcTable(221) == ShiftByte(221) && CrcTable(222) == ShiftByte(222) && CrcTable(223) == ShiftByte(223)
  {
  }

  lemma Row28()
    ensures CrcTable(224) == ShiftByte(224) && CrcTable(225) == ShiftByte(225) && CrcTable(226) == ShiftByte(226) && CrcTable(227) == ShiftByte(227) && CrcTable(228) == ShiftByte(228) && CrcTable(229) == ShiftByte(229) && CrcTable(230) == ShiftByte(230) && CrcTable(231) == ShiftByte(231)
  {
  }

  lemma Row29()
    ensures CrcTable(232) == ShiftByte(232) && CrcTable(233) == ShiftByte(233) && CrcTable(234) == ShiftByte(234) && CrcTable(235) == ShiftByte(235) && CrcTable(236) == ShiftByte(236) && CrcTable(237) == ShiftByte(237) && CrcTable(238) == ShiftByte(238) && CrcTable(239) == ShiftByte(239)
  {
  }

  lemma Row30()
    ensures CrcTable(240) == ShiftByte(240) && CrcTable(241) == ShiftByte(241) && CrcTable(242) == ShiftByte(242) && CrcTable(243) == ShiftByte(243) && CrcTable(244) == ShiftByte(244) && CrcTable(245) == ShiftByte(245) && CrcTable(246) == ShiftByte(246) && CrcTable(247) == ShiftByte(247)
  {
  }

  lemma Row31()
    ensures CrcTable(248) == ShiftByte(248) && CrcTable(249) == ShiftByte(249) && CrcTable(250) == ShiftByte(250) && CrcTable(251) == ShiftByte(251) && CrcTable(252) == ShiftByte(252) && CrcTable(253) == ShiftByte(253) && CrcTable(254) == ShiftByte(254) && CrcTable(255) == ShiftByte(255)
  {
  }

  // The table checked a quarter (eight rows) at a time.

  lemma TableQuarter0(idx: bv16)
    requires 0 <= idx < 64
    ensures CrcTable(idx) == ShiftByte(idx)
  {
    if idx < 8 { Row0(); assert idx == 0 || idx == 1 || idx == 2 || idx == 3 || idx == 4 || idx == 5 || idx == 6 || idx == 7; }
    else if idx < 16 { Row1(); assert idx == 8 || idx == 9 || idx == 10 || idx == 11 || idx == 12 || idx == 13 || idx == 14 || idx == 15; }
    else if idx < 24 { Row2(); assert idx == 16 || idx == 17 || idx == 18 || idx == 19 || idx == 20 || idx == 21 || idx == 22 || idx == 23; }
    else if idx < 32 { Row3(); assert idx == 24 || idx == 25 || idx == 26 || idx == 27 || idx == 28 || idx == 29 || idx == 30 || idx == 31; }
    else if idx < 40 { Row4(); assert idx == 32 || idx == 33 || idx == 34 || idx == 35 || idx == 36 || idx == 37 || idx == 38 || idx == 39; }
    else if idx < 48 { Row5(); assert idx == 40 || idx == 41 || idx == 42 || idx == 43 || idx == 44 || idx == 45 || idx == 46 || idx == 47; }
    else if idx < 56 { Row6(); assert idx == 48 || idx == 49 || idx == 50 || idx == 51 || idx == 52 || idx == 53 || idx == 54 || idx == 55; }
    else { Row7(); assert idx == 56 || idx == 57 || idx == 58 || idx == 59 || idx == 60 || idx == 61 || idx == 62 || idx == 63; }
  }

  lemma TableQuarter1(idx: bv16)
    requires 64 <= idx < 128
    ensures CrcTable(idx) == ShiftByte(idx)
  {
    if idx < 72 { Row8(); assert idx == 64 || idx == 65 || idx == 66 || idx == 67 || idx == 68 || idx == 69 || idx == 70 || idx == 71; }
    else if idx < 80 { Row9(); assert idx == 72 || idx == 73 || idx == 74 || idx == 75 || idx == 76 || idx == 77 || idx == 78 || idx == 79; }
    else if idx < 88 { Row10(); assert idx == 80 || idx == 81 || idx == 82 || idx == 83 || idx == 84 || idx == 85 || idx == 86 || idx == 87; }
    else if idx < 96 { Row11(); assert idx == 88 || idx == 89 || idx == 90 || idx == 91 || idx == 92 || idx == 93 || idx == 94 || idx == 95; }
    else if idx < 104 { Row12(); assert idx == 96 || idx == 97 || idx == 98 || idx == 99 || idx == 100 || idx == 101 || idx == 102 || idx == 103; }
    else if idx < 112 { Row13(); assert idx == 104 || idx == 105 || idx == 106 || idx == 107 || idx == 108 || idx == 109 || idx == 110 || idx == 111; }
    else if idx < 120 { Row14(); assert idx == 112 || idx == 113 || idx == 114 || idx == 115 || idx == 116 || idx == 117 || idx == 118 || idx == 119; }
    else { Row15(); assert idx == 120 || idx == 121 || idx == 122 || idx == 123 || idx == 124 || idx == 125 || idx == 126 || idx == 127; }
  }

  lemma TableQuarter2(idx: bv16)
    requires 128 <= idx < 192
    ensures CrcTable(idx) == ShiftByte(idx)
  {
    if idx < 136 { Row16(); assert idx == 128 || idx == 129 || idx == 130 || idx == 131 || idx == 132 || idx == 133 || idx == 134 || idx == 135; }
    else if idx < 144 { Row17(); assert idx == 136 || idx == 137 || idx == 138 || idx == 139 || idx == 140 || idx == 141 || idx == 142 || idx == 143; }
    else if idx < 152 { Row18(); assert idx == 144 || idx == 145 || idx == 146 || idx == 147 || idx == 148 || idx == 149 || idx == 150 || idx == 151; }
    else if idx < 160 { Row19(); assert idx == 152 || idx == 153 || idx == 154 || idx == 155 || idx == 156 || idx == 157 || idx == 158 || idx == 159; }
    else if idx < 168 { Row20(); assert idx == 160 || idx == 161 || idx == 162 || idx == 163 || idx == 164 || idx == 165 || idx == 166 || idx == 167; }
    else if idx < 176 { Row21(); assert idx == 168 || idx == 169 || idx == 170 || idx == 171 || idx == 172 || idx == 173 || idx == 174 || idx == 175; }
    else if idx < 184 { Row22(); assert idx == 176 || idx == 177 || idx == 178 || idx == 179 || idx == 180 || idx == 181 || idx == 182 || idx == 183; }
    else { Row23(); assert idx == 184 || idx == 185 || idx == 186 || idx == 187 || idx == 188 || idx == 189 || idx == 190 || idx == 191; }
  }

  lemma TableQuarter3(idx: bv16)
    requires 192 <= idx < 256
    ensures CrcTable(idx) == ShiftByte(idx)
  {
    if idx < 200 { Row24(); assert idx == 192 || idx == 193 || idx == 194 || idx == 195 || idx == 196 || idx == 197 || idx == 198 || idx == 199; }
    else if idx < 208 { Row25(); assert idx == 200 || idx == 201 || idx == 202 || idx == 203 || idx == 204 || idx == 205 || idx == 206 || idx == 207; }
    else if idx < 216 { Row26(); assert idx == 208 || idx == 209 || idx == 210 || idx == 211 || idx == 212 || idx == 213 || idx == 214 || idx == 215; }
    else if idx < 224 { Row27(); assert idx == 216 || idx == 217 || idx == 218 || idx == 219 || idx == 220 || idx == 221 || idx == 222 || idx == 223; }
    else if idx < 232 { Row28(); assert idx == 224 || idx == 225 || idx == 226 || idx == 227 || idx == 228 || idx == 229 || idx == 230 || idx == 231; }
    else if idx < 240 { Row29(); assert idx == 232 || idx == 233 || idx == 234 || idx == 235 || idx == 236 || idx == 237 || idx == 238 || idx == 239; }
    else if idx < 248 { Row30(); assert idx == 240 || idx == 241 || idx == 242 || idx == 243 || idx == 244 || idx == 245 || idx == 246 || idx == 247; }
    else { Row31(); assert idx == 248 || idx == 249 || idx == 250 || idx == 251 || idx == 252 || idx == 253 || idx == 254 || idx == 255; }
  }

  /** Every entry of the lookup table is the eight-shift image of its index. */
  lemma TableIsBitwise(idx: bv16)
    requires idx < 256
    ensures CrcTable(idx) == ShiftByte(idx)
  {
    if idx < 64 { TableQuarter0(idx); }
    else if idx < 128 { TableQuarter1(idx); }
    else if idx < 192 { TableQuarter2(idx); }
    else { TableQuarter3(idx); }
  }

  /** The feedback term is linear over xor. */
  lemma FeedbackLinear(a: bv16, b: bv16)
    ensures Feedback(a ^ b) == Feedback(a) ^ Feedback(b)
  {
  }

  /** A right shift distributes over xor. */
  lemma ShiftLinear(a: bv16, b: bv16)
    ensures (a ^ b) >> 1 == (a >> 1) ^ (b >> 1)
  {
  }

  /** One shift round is linear over xor. */
  lemma ShiftRoundLinear(a: bv16, b: bv16)
    ensures ShiftRound(Xor(a, b)) == Xor(ShiftRound(a), ShiftRound(b))
  {
    FeedbackLinear(a, b);
    ShiftLinear(a, b);
  }

  /** So is any number of rounds. */
  lemma {:induction false} ShiftRoundsLinear(a: bv16, b: bv16, n: nat)
    ensures ShiftRounds(Xor(a, b), n) == Xor(ShiftRounds(a, n), ShiftRounds(b, n))
  {
    if n > 0 {
      ShiftRoundsLinear(a, b, n - 1);
      ShiftRoundLinear(ShiftRounds(a, n - 1), ShiftRounds(b, n - 1));
    }
  }

  /** With the least significant bit clear a round is a plain shift. */
  lemma EvenRound(h: bv16)
    requires h & 1 == 0
    ensures ShiftRound(h) == h >> 1
  {
  }

  /** The bits that eight shifts move out of a register whose low byte is clear. */
  lemma LowByteClear(h: bv16)
    requires h & 0xFF == 0
    ensures (h >> 1) & 1 == 0 && (h >> 2) & 1 == 0 && (h >> 3) & 1 == 0 && (h >> 4) & 1 == 0
    ensures (h >> 5) & 1 == 0 && (h >> 6) & 1 == 0 && (h >> 7) & 1 == 0
    ensures (h >> 1) >> 1 == h >> 2 && (h >> 2) >> 1 == h >> 3 && (h >> 3) >> 1 == h >> 4
    ensures (h >> 4) >> 1 == h >> 5 && (h >> 5) >> 1 == h >> 6 && (h >> 6) >> 1 == h >> 7
    ensures (h >> 7) >> 1 == h >> 8
  {
  }

  /** Eight rounds on a register whose low byte is clear only shift it. */
  lemma HighByteShifts(h: bv16)
    requires h & 0xFF == 0
    ensures ShiftRounds(h, 8) == h >> 8
  {
    LowByteClear(h);
    EvenRound(h);
    assert ShiftRounds(h, 1) == h >> 1;
    EvenRound(h >> 1);
    assert ShiftRounds(h, 2) == h >> 2;
    EvenRound(h >> 2);
    assert ShiftRounds(h, 3) == h >> 3;
    EvenRound(h >> 3);
    assert ShiftRounds(h, 4) == h >> 4;
    EvenRound(h >> 4);
    assert ShiftRounds(h, 5) == h >> 5;
    EvenRound(h >> 5);
    assert ShiftRounds(h, 6) == h >> 6;
    EvenRound(h >> 6);
    assert ShiftRounds(h, 7) == h >> 7;
    EvenRound(h >> 7);
  }

  /** A register is its high byte xor its low byte. */
  lemma ByteHalves(x: bv16)
    ensures x == Xor(x & 0xFF00, x & 0xFF)
    ensures (x & 0xFF00) & 0xFF == 0 && (x & 0xFF00) >> 8 == x >> 8
  {
  }

  /** The shift rounds are linear, so the high byte can be shifted out separately. */
  lemma ShiftByteSplit(x: bv16)
    ensures ShiftByte(x) == Xor(x >> 8, ShiftByte(x & 0xFF))
  {
    ShiftByteRounds(x);
    ShiftByteRounds(x & 0xFF);
    ByteHalves(x);
    ShiftRoundsLinear(x & 0xFF00, x & 0xFF, 8);
    HighByteShifts(x & 0xFF00);
  }

  /** A byte xor-ed into the register leaves its high byte alone. */
  lemma HighByteKept(crc: bv16, b: bv16)
    requires b < 256
    ensures (crc ^ b) >> 8 == crc >> 8
  {
  }

  /** The table step on a 16-bit operand, so that it can be stated for any byte already widened. */
  function TableStep(crc: bv16, w: bv16): bv16 {
    (crc >> 8) ^ CrcTable((crc ^ w) & 0xFF)
  }

  /** The step of the byte loop is the table step on the widened byte. */
  lemma StepIsTable(crc: bv16, b: uint8)
    ensures CrcStep(crc, b) == TableStep(crc, Widen(b))
  {
  }

  /** One table step is eight bit-serial shifts of the register xor-ed with the byte. */
  lemma StepIsBitwise(crc: bv16, w: bv16)
    requires w < 256
    ensures TableStep(crc, w) == ShiftByte(Xor(crc, w))
  {
    var x := crc ^ w;
    TableIsBitwise(x & 0xFF);
    ShiftByteSplit(x);
    HighByteKept(crc, w);
  }

  /** The table-driven CRC equals the bit-serial CRC of the standard on every message. */
  lemma {:induction false} CrcIsBitwise(data: seq<uint8>)
    ensures CrcOf(data) == BitwiseCrc(data)
  {
    if data != [] {
      var prefix, b := data[..|data| - 1], data[|data| - 1];
      CrcIsBitwise(prefix);
      StepIsBitwise(CrcOf(prefix), Widen(b));
      StepIsTable(CrcOf(prefix), b);
      assert data == prefix + [b];
      CrcOfSnoc(prefix, b);
    }
  }

  // The register after each prefix of the request `01 03 00 00 00 0A`.

  lemma RequestStep1()
    ensures CrcStep(0xFFFF, 0x01) == 0x807E
  {
  }

  lemma RequestStep2()
    ensures CrcStep(0x807E, 0x03) == 0x2140
  {
  }

  lemma RequestStep3()
    ensures CrcStep(0x2140, 0x00) == 0xF020
  {
  }

  lemma RequestStep4()
    ensures CrcStep(0xF020, 0x00) == 0xD8F1
  {
  }

  lemma RequestStep5()
    ensures CrcStep(0xD8F1, 0x00) == 0x8419
  {
  }

  lemma RequestStep6()
    ensures CrcStep(0x8419, 0x0A) == 0xCDC5
  {
  }

  lemma VectorPrefix1()
    ensures CrcOf([0x01]) == 0x807E
  {
    RequestStep1();
    assert [0x01][..0] == [];
  }

  lemma VectorPrefix2()
    ensures CrcOf([0x01, 0x03]) == 0x2140
  {
    VectorPrefix1();
    CrcOfSnoc([0x01], 0x03);
    assert [0x01] + [0x03] == [0x01, 0x03];
    RequestStep2();
  }

  lemma VectorPrefix3()
    ensures CrcOf([0x01, 0x03, 0x00]) == 0xF020
  {
    VectorPrefix2();
    CrcOfSnoc([0x01, 0x03], 0x00);
    assert [0x01, 0x03] + [0x00] == [0x01, 0x03, 0x00];
    RequestStep3();
  }

  lemma VectorPrefix4()
    ensures CrcOf([0x01, 0x03, 0x00, 0x00]) == 0xD8F1
  {
    VectorPrefix3();
    CrcOfSnoc([0x01, 0x03, 0x00], 0x00);
    assert [0x01, 0x03, 0x00] + [0x00] == [0x01, 0x03, 0x00, 0x00];
    RequestStep4();
  }

  lemma VectorPrefix5()
    ensures CrcOf([0x01, 0x03, 0x00, 0x00, 0x00]) == 0x8419
  {
    VectorPrefix4();
    CrcOfSnoc([0x01, 0x03, 0x00, 0x00], 0x00);
    assert [0x01, 0x03, 0x00, 0x00] + [0x00] == [0x01, 0x03, 0x00, 0x00, 0x00];
    RequestStep5();
  }

  lemma VectorPrefix6()
    ensures CrcOf([0x01, 0x03, 0x00, 0x00, 0x00, 0x0A]) == 0xCDC5
  {
    VectorPrefix5();
    CrcOfSnoc([0x01, 0x03, 0x00, 0x00, 0x00], 0x0A);
    assert [0x01, 0x03, 0x00, 0x00, 0x00] + [0x0A] == [0x01, 0x03, 0x00, 0x00, 0x00, 0x0A];
    RequestStep6();
  }

  /** Slave 1, read 10 holding registers from 0: the CRC transmitted as C5 CD. */
  lemma CrcReadRequestVector()
    ensures Crc16([0x01, 0x03, 0x00, 0x00, 0x00, 0x0A]) == 0xCDC5
    ensures VerifyCrc16([0x01, 0x03, 0x00, 0x00, 0x00, 0x0A, 0xC5, 0xCD])
  {
    VectorPrefix6();
    var f: seq<uint8> := [0x01, 0x03, 0x00, 0x00, 0x00, 0x0A, 0xC5, 0xCD];
    assert f[..6] == [0x01, 0x03, 0x00, 0x00, 0x00, 0x0A];
  }

  /**
   * The unit test of `calculate_crc16` in `modbus.rs` expects 0x04C5 for this
   * read request; the function returns 0xCDC5, whose low byte first (C5 CD)
   * is the trailer the neighbouring `verify_crc16` test accepts.
   */
  lemma CrcTestExpectationDisagrees()
    ensures Crc16([0x01, 0x03, 0x00, 0x00, 0x00, 0x0A]) != 0x04C5
    ensures !VerifyCrc16([0x01, 0x03, 0x00, 0x00, 0x00, 0x0A, 0xC5, 0x04])
  {
    CrcReadRequestVector();
    var f := [0x01, 0x03, 0x00, 0x00, 0x00, 0x0A, 0xC5, 0x04];
    assert f[..6] == [0x01, 0x03, 0x00, 0x00, 0x00, 0x0A];
  }
}

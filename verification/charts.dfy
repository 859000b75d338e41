/**
 * The note charts of client/src/lib/charts.ts: the five difficulties of the song
 * "Gears of Fate", each a list of notes with a hit time in milliseconds and a lane,
 * registered under the key "songId-difficulty".
 */
module Charts {
  import opened Common

  /** `beatToMs(beat, bpm)`: the time of a beat at a fixed tempo, in milliseconds. */
  function BeatToMs(beat: real, bpm: real): (ms: real)
    requires bpm > 0.0
    ensures ms * bpm == beat * 60000.0
  {
    beat * 60000.0 / bpm
  }

  /** The beat at a time: the inverse of `BeatToMs`. */
  function MsToBeat(ms: real, bpm: real): (beat: real)
    requires bpm > 0.0
  {
    ms * bpm / 60000.0
  }

  lemma BeatRoundTrip(beat: real, bpm: real)
    requires bpm > 0.0
    ensures MsToBeat(BeatToMs(beat, bpm), bpm) == beat
  {
  }

  /** Later beats are later in time. */
  lemma BeatToMsIncreasing(b1: real, b2: real, bpm: real)
    requires bpm > 0.0 && b1 < b2
    ensures BeatToMs(b1, bpm) < BeatToMs(b2, bpm)
  {
    var gap := (b2 - b1) * 60000.0;
    assert gap > 0.0;
    assert gap / bpm > 0.0;
    assert BeatToMs(b2, bpm) - BeatToMs(b1, bpm) == gap / bpm;
  }

  /** The lanes A, S, K and L: every chart note must name one of them. */
  type Lane = l: int | 0 <= l < 4

  datatype ChartNote = ChartNote(time: real, lane: Lane)

  datatype Chart = Chart(songId: string, difficulty: string, bpm: real, notes: seq<ChartNote>)

  /** A note written as `{ time: beatToMs(beat, bpm), lane }`. */
  function At(beat: real, bpm: real, lane: Lane): (n: ChartNote)
    requires bpm > 0.0
    ensures n.lane == lane && n.time * bpm == beat * 60000.0
  {
    ChartNote(BeatToMs(beat, bpm), lane)
  }

  const EasyNotes: seq<ChartNote> := [
    At(1.0, 140.0, 0), At(3.0, 140.0, 1), At(5.0, 140.0, 2), At(7.0, 140.0, 3),
    At(9.0, 140.0, 1), At(11.0, 140.0, 0), At(13.0, 140.0, 3), At(15.0, 140.0, 2),
    At(17.0, 140.0, 0), At(19.0, 140.0, 2), At(21.0, 140.0, 1), At(23.0, 140.0, 3),
    At(25.0, 140.0, 2), At(27.0, 140.0, 0), At(29.0, 140.0, 3), At(31.0, 140.0, 1),
    At(33.0, 140.0, 0), At(35.0, 140.0, 1), At(37.0, 140.0, 2), At(39.0, 140.0, 3),
    At(41.0, 140.0, 1), At(43.0, 140.0, 2), At(45.0, 140.0, 0), At(47.0, 140.0, 3),
    At(49.0, 140.0, 2), At(51.0, 140.0, 1), At(53.0, 140.0, 3), At(55.0, 140.0, 0),
    At(57.0, 140.0, 1), At(59.0, 140.0, 3), At(61.0, 140.0, 2), At(63.0, 140.0, 0),
    At(65.0, 140.0, 0), At(67.0, 140.0, 1), At(69.0, 140.0, 2), At(71.0, 140.0, 1),
    At(73.0, 140.0, 3), At(75.0, 140.0, 0), At(77.0, 140.0, 2), At(79.0, 140.0, 1),
    At(81.0, 140.0, 0), At(83.0, 140.0, 3), At(85.0, 140.0, 1), At(87.0, 140.0, 2),
    At(89.0, 140.0, 0), At(91.0, 140.0, 1), At(93.0, 140.0, 3), At(95.0, 140.0, 2),
    At(97.0, 140.0, 1), At(99.0, 140.0, 0), At(101.0, 140.0, 2), At(103.0, 140.0, 3),
    At(105.0, 140.0, 0), At(107.0, 140.0, 1), At(109.0, 140.0, 3), At(111.0, 140.0, 2),
    At(113.0, 140.0, 1), At(115.0, 140.0, 3), At(117.0, 140.0, 0), At(119.0, 140.0, 2),
    At(121.0, 140.0, 3), At(123.0, 140.0, 1), At(125.0, 140.0, 0), At(127.0, 140.0, 2),
    At(129.0, 140.0, 0), At(130.0, 140.0, 1), At(131.0, 140.0, 2), At(133.0, 140.0, 3),
    At(135.0, 140.0, 1), At(136.0, 140.0, 0), At(137.0, 140.0, 3), At(139.0, 140.0, 2),
    At(141.0, 140.0, 0), At(142.0, 140.0, 2), At(143.0, 140.0, 1), At(145.0, 140.0, 3),
    At(147.0, 140.0, 2), At(148.0, 140.0, 0), At(149.0, 140.0, 3), At(151.0, 140.0, 1),
    At(153.0, 140.0, 0), At(154.0, 140.0, 1), At(155.0, 140.0, 2), At(157.0, 140.0, 3),
    At(159.0, 140.0, 1), At(160.0, 140.0, 2), At(161.0, 140.0, 0), At(163.0, 140.0, 3),
    At(165.0, 140.0, 0), At(167.0, 140.0, 2), At(169.0, 140.0, 1), At(171.0, 140.0, 3),
    At(173.0, 140.0, 0), At(175.0, 140.0, 2), At(177.0, 140.0, 1), At(179.0, 140.0, 3),
    At(181.0, 140.0, 2), At(183.0, 140.0, 0), At(185.0, 140.0, 3), At(187.0, 140.0, 1),
    At(189.0, 140.0, 2), At(191.0, 140.0, 0), At(193.0, 140.0, 3), At(195.0, 140.0, 1),
    At(197.0, 140.0, 0), At(199.0, 140.0, 1), At(201.0, 140.0, 2), At(203.0, 140.0, 3),
    At(205.0, 140.0, 1), At(207.0, 140.0, 0), At(209.0, 140.0, 3), At(211.0, 140.0, 2),
    At(213.0, 140.0, 0), At(215.0, 140.0, 2), At(217.0, 140.0, 1), At(219.0, 140.0, 3),
    At(221.0, 140.0, 2), At(223.0, 140.0, 0), At(225.0, 140.0, 1), At(227.0, 140.0, 3),
    At(229.0, 140.0, 0), At(231.0, 140.0, 1), At(233.0, 140.0, 2), At(235.0, 140.0, 3),
    At(237.0, 140.0, 1), At(239.0, 140.0, 0), At(241.0, 140.0, 3), At(243.0, 140.0, 2),
    At(245.0, 140.0, 0), At(247.0, 140.0, 2), At(249.0, 140.0, 1), At(251.0, 140.0, 3),
    At(253.0, 140.0, 2), At(255.0, 140.0, 0), At(257.0, 140.0, 3), At(259.0, 140.0, 1),
    At(261.0, 140.0, 0), At(263.0, 140.0, 1), At(265.0, 140.0, 2), At(267.0, 140.0, 3),
    At(269.0, 140.0, 1), At(271.0, 140.0, 2), At(273.0, 140.0, 0), At(275.0, 140.0, 3)
  ]

  const NormalNotes: seq<ChartNote> := [
    At(1.0, 160.0, 0), At(2.0, 160.0, 1), At(3.0, 160.0, 2), At(4.0, 160.0, 3),
    At(5.0, 160.0, 1), At(6.0, 160.0, 0), At(7.0, 160.0, 3), At(8.0, 160.0, 2),
    At(9.0, 160.0, 0), At(10.0, 160.0, 2), At(11.0, 160.0, 1), At(12.0, 160.0, 3),
    At(13.0, 160.0, 2), At(15.0, 160.0, 3), At(16.0, 160.0, 1), At(17.0, 160.0, 0),
    At(17.5, 160.0, 1), At(18.0, 160.0, 2), At(19.0, 160.0, 3), At(19.5, 160.0, 0),
    At(21.0, 160.0, 2), At(21.5, 160.0, 3), At(22.0, 160.0, 0), At(23.0, 160.0, 1),
    At(23.5, 160.0, 2), At(24.0, 160.0, 3), At(25.0, 160.0, 0), At(25.5, 160.0, 1),
    At(26.5, 160.0, 2), At(27.0, 160.0, 3), At(28.0, 160.0, 0), At(28.5, 160.0, 2),
    At(29.5, 160.0, 1), At(30.0, 160.0, 3), At(31.0, 160.0, 0), At(31.5, 160.0, 3),
    At(32.5, 160.0, 1), At(33.0, 160.0, 2), At(34.0, 160.0, 0), At(34.5, 160.0, 1),
    At(35.0, 160.0, 3), At(35.5, 160.0, 2), At(36.0, 160.0, 1), At(37.0, 160.0, 0),
    At(37.5, 160.0, 2), At(38.0, 160.0, 3), At(39.0, 160.0, 1), At(39.5, 160.0, 3),
    At(40.0, 160.0, 0), At(40.5, 160.0, 2), At(41.0, 160.0, 0), At(41.5, 160.0, 2),
    At(42.0, 160.0, 1), At(42.5, 160.0, 3), At(43.0, 160.0, 0), At(43.5, 160.0, 2),
    At(44.0, 160.0, 1), At(44.5, 160.0, 3), At(45.0, 160.0, 2), At(45.5, 160.0, 0),
    At(46.0, 160.0, 3), At(46.5, 160.0, 1), At(49.0, 165.0, 0), At(49.25, 165.0, 1),
    At(49.5, 165.0, 2), At(49.75, 165.0, 3), At(50.0, 165.0, 1), At(50.5, 165.0, 2),
    At(51.0, 165.0, 0), At(51.5, 165.0, 3), At(53.0, 165.0, 0), At(53.5, 165.0, 2),
    At(54.0, 165.0, 1), At(54.5, 165.0, 3), At(55.0, 165.0, 0), At(55.5, 165.0, 2),
    At(56.0, 165.0, 1), At(56.5, 165.0, 3), At(57.0, 165.0, 2), At(57.5, 165.0, 0),
    At(58.0, 165.0, 3), At(58.5, 165.0, 1), At(59.0, 165.0, 2), At(59.5, 165.0, 0),
    At(60.0, 165.0, 3), At(60.5, 165.0, 1), At(61.0, 165.0, 0), At(61.5, 165.0, 1),
    At(62.0, 165.0, 2), At(62.5, 165.0, 3), At(63.0, 165.0, 1), At(63.5, 165.0, 0),
    At(64.0, 165.0, 3), At(64.5, 165.0, 2), At(65.0, 165.0, 0), At(65.5, 165.0, 2),
    At(66.0, 165.0, 1), At(66.5, 165.0, 3), At(67.0, 165.0, 2), At(67.5, 165.0, 0),
    At(68.0, 165.0, 1), At(68.5, 165.0, 3), At(69.0, 165.0, 0), At(69.5, 165.0, 1),
    At(70.0, 165.0, 2), At(70.5, 165.0, 3), At(71.0, 165.0, 1), At(71.5, 165.0, 0),
    At(72.0, 165.0, 3), At(72.5, 165.0, 2), At(73.0, 165.0, 0), At(73.5, 165.0, 2),
    At(74.0, 165.0, 1), At(74.5, 165.0, 3), At(75.0, 165.0, 2), At(75.5, 165.0, 0),
    At(76.0, 165.0, 3), At(76.5, 165.0, 1), At(77.0, 165.0, 0), At(77.5, 165.0, 1),
    At(78.0, 165.0, 2), At(78.5, 165.0, 3), At(79.0, 165.0, 1), At(79.5, 165.0, 2),
    At(80.0, 165.0, 0), At(80.5, 165.0, 3)
  ]

  const HardNotes: seq<ChartNote> := [
    At(1.0, 170.0, 0), At(1.25, 170.0, 1), At(1.5, 170.0, 2), At(1.75, 170.0, 3),
    At(2.0, 170.0, 2), At(2.5, 170.0, 0), At(3.0, 170.0, 1), At(3.5, 170.0, 3),
    At(4.0, 170.0, 0), At(4.25, 170.0, 2), At(4.5, 170.0, 1), At(4.75, 170.0, 3),
    At(5.0, 170.0, 0), At(5.25, 170.0, 3), At(5.5, 170.0, 1), At(5.75, 170.0, 2),
    At(6.0, 170.0, 3), At(6.25, 170.0, 0), At(6.5, 170.0, 2), At(6.75, 170.0, 1),
    At(7.0, 170.0, 0), At(7.25, 170.0, 1), At(7.5, 170.0, 2), At(7.75, 170.0, 3),
    At(8.0, 170.0, 1), At(8.5, 170.0, 0), At(9.0, 170.0, 3), At(9.5, 170.0, 2),
    At(10.0, 170.0, 0), At(10.25, 170.0, 2), At(10.5, 170.0, 1), At(10.75, 170.0, 3),
    At(11.0, 170.0, 0), At(11.125, 170.0, 1), At(11.25, 170.0, 2), At(11.375, 170.0, 3),
    At(11.5, 170.0, 2), At(11.625, 170.0, 1), At(11.75, 170.0, 0), At(11.875, 170.0, 3),
    At(12.0, 170.0, 1), At(12.25, 170.0, 2), At(12.5, 170.0, 0), At(12.75, 170.0, 3),
    At(13.0, 170.0, 2), At(13.25, 170.0, 0), At(13.5, 170.0, 3), At(13.75, 170.0, 1),
    At(14.0, 170.0, 0), At(14.25, 170.0, 2), At(14.5, 170.0, 1), At(14.75, 170.0, 3),
    At(15.0, 170.0, 2), At(15.25, 170.0, 0), At(15.5, 170.0, 3), At(15.75, 170.0, 1),
    At(16.0, 170.0, 0), At(16.25, 170.0, 3), At(16.5, 170.0, 1), At(16.75, 170.0, 2)
  ]

  const ExpertNotes: seq<ChartNote> := [
    At(1.0, 185.0, 0), At(1.25, 185.0, 1), At(1.5, 185.0, 2), At(1.75, 185.0, 3),
    At(2.0, 185.0, 2), At(2.25, 185.0, 1), At(2.5, 185.0, 0), At(2.75, 185.0, 3),
    At(3.0, 185.0, 1), At(3.25, 185.0, 2), At(3.5, 185.0, 0), At(3.75, 185.0, 3),
    At(4.0, 185.0, 0), At(4.0625, 185.0, 1), At(4.125, 185.0, 2), At(4.1875, 185.0, 3),
    At(4.25, 185.0, 2), At(4.3125, 185.0, 1), At(4.375, 185.0, 0), At(4.4375, 185.0, 3),
    At(4.5, 185.0, 1), At(4.75, 185.0, 2), At(5.0, 185.0, 0), At(5.25, 185.0, 3),
    At(6.0, 185.0, 3), At(6.25, 185.0, 0), At(6.5, 185.0, 2), At(6.75, 185.0, 1),
    At(7.0, 185.0, 3), At(7.25, 185.0, 1), At(7.5, 185.0, 0), At(7.75, 185.0, 2),
    At(8.0, 185.0, 1), At(8.25, 185.0, 3), At(8.5, 185.0, 0), At(8.75, 185.0, 2),
    At(9.0, 185.0, 0), At(9.0625, 185.0, 1), At(9.125, 185.0, 2), At(9.1875, 185.0, 3),
    At(9.25, 185.0, 2), At(9.3125, 185.0, 1), At(9.375, 185.0, 0), At(9.4375, 185.0, 3),
    At(9.5, 185.0, 1), At(9.5625, 185.0, 2), At(9.625, 185.0, 0), At(9.6875, 185.0, 3),
    At(9.75, 185.0, 2), At(9.8125, 185.0, 1), At(9.875, 185.0, 0), At(9.9375, 185.0, 3),
    At(10.0, 185.0, 0), At(10.25, 185.0, 1), At(10.5, 185.0, 2), At(10.75, 185.0, 3),
    At(11.0, 185.0, 1), At(11.25, 185.0, 0), At(11.5, 185.0, 3), At(11.75, 185.0, 2),
    At(12.0, 185.0, 0), At(12.0625, 185.0, 2), At(12.125, 185.0, 1), At(12.1875, 185.0, 3),
    At(12.25, 185.0, 0), At(12.3125, 185.0, 3), At(12.375, 185.0, 2), At(12.4375, 185.0, 1),
    At(12.5, 185.0, 2), At(12.75, 185.0, 0), At(13.0, 185.0, 3), At(13.25, 185.0, 1)
  ]

  const MasterNotes: seq<ChartNote> := [
    At(1.0, 210.0, 0), At(1.015625, 210.0, 1), At(1.03125, 210.0, 2), At(1.046875, 210.0, 3),
    At(1.0625, 210.0, 2), At(1.078125, 210.0, 1), At(1.09375, 210.0, 0), At(1.109375, 210.0, 3),
    At(1.125, 210.0, 1), At(1.140625, 210.0, 2), At(1.15625, 210.0, 0), At(1.171875, 210.0, 3),
    At(1.1875, 210.0, 2), At(1.203125, 210.0, 1), At(1.21875, 210.0, 0), At(1.234375, 210.0, 3),
    At(1.25, 210.0, 0), At(1.265625, 210.0, 1), At(1.28125, 210.0, 2), At(1.296875, 210.0, 3),
    At(1.3125, 210.0, 2), At(1.328125, 210.0, 1), At(1.34375, 210.0, 0), At(1.359375, 210.0, 3),
    At(1.375, 210.0, 1), At(1.390625, 210.0, 3), At(1.40625, 210.0, 0), At(1.421875, 210.0, 2),
    At(1.4375, 210.0, 3), At(1.453125, 210.0, 2), At(1.46875, 210.0, 1), At(1.484375, 210.0, 0),
    At(1.5, 210.0, 0), At(1.515625, 210.0, 2), At(1.53125, 210.0, 1), At(1.546875, 210.0, 3),
    At(1.5625, 210.0, 0), At(1.578125, 210.0, 3), At(1.59375, 210.0, 2), At(1.609375, 210.0, 1),
    At(1.625, 210.0, 2), At(1.640625, 210.0, 0), At(1.65625, 210.0, 3), At(1.671875, 210.0, 1),
    At(1.6875, 210.0, 2), At(1.703125, 210.0, 1), At(1.71875, 210.0, 0), At(1.734375, 210.0, 3),
    At(1.75, 210.0, 3), At(1.765625, 210.0, 0), At(1.78125, 210.0, 2), At(1.796875, 210.0, 1),
    At(1.8125, 210.0, 3), At(1.828125, 210.0, 1), At(1.84375, 210.0, 0), At(1.859375, 210.0, 2),
    At(1.875, 210.0, 1), At(1.890625, 210.0, 3), At(1.90625, 210.0, 0), At(1.921875, 210.0, 2),
    At(1.9375, 210.0, 1), At(1.953125, 210.0, 2), At(1.96875, 210.0, 3), At(1.984375, 210.0, 0),
    At(2.0, 210.0, 0), At(2.03125, 210.0, 1), At(2.0625, 210.0, 2), At(2.09375, 210.0, 3),
    At(2.125, 210.0, 1), At(2.15625, 210.0, 0), At(2.1875, 210.0, 3), At(2.21875, 210.0, 2),
    At(2.25, 210.0, 0), At(2.28125, 210.0, 2), At(2.3125, 210.0, 1), At(2.34375, 210.0, 3),
    At(2.375, 210.0, 2), At(2.40625, 210.0, 0), At(2.4375, 210.0, 3), At(2.46875, 210.0, 1),
    At(2.5, 210.0, 0), At(2.515625, 210.0, 1), At(2.53125, 210.0, 2), At(2.546875, 210.0, 3),
    At(2.5625, 210.0, 2), At(2.578125, 210.0, 1), At(2.59375, 210.0, 0), At(2.609375, 210.0, 3),
    At(2.625, 210.0, 1), At(2.640625, 210.0, 3), At(2.65625, 210.0, 0), At(2.671875, 210.0, 2),
    At(2.6875, 210.0, 3), At(2.703125, 210.0, 2), At(2.71875, 210.0, 1), At(2.734375, 210.0, 0)
  ]

  const GearsOfFateEasy: Chart := Chart("1", "Easy", 140.0, EasyNotes)
  const GearsOfFateNormal: Chart := Chart("1", "Normal", 160.0, NormalNotes)
  const GearsOfFateHard: Chart := Chart("1", "Hard", 170.0, HardNotes)
  const GearsOfFateExpert: Chart := Chart("1", "Expert", 185.0, ExpertNotes)
  const GearsOfFateMaster: Chart := Chart("1", "Master", 210.0, MasterNotes)


  /** The registry key of a chart: `${songId}-${difficulty}`. */
  function Key(songId: string, difficulty: string): (k: string)
    ensures |k| == |songId| + 1 + |difficulty| && k[|songId|] == '-'
  {
    songId + "-" + difficulty
  }

  /** `CHARTS` */
  const Registry: map<string, Chart> := map[
    "1-Easy" := GearsOfFateEasy,
    "1-Normal" := GearsOfFateNormal,
    "1-Hard" := GearsOfFateHard,
    "1-Expert" := GearsOfFateExpert,
    "1-Master" := GearsOfFateMaster
  ]

  /** The five registry entries, by key, with the song id and difficulty each chart carries. */
  lemma RegistryEntries()
    ensures Registry.Keys == {"1-Easy", "1-Normal", "1-Hard", "1-Expert", "1-Master"}
    ensures Registry["1-Easy"].songId == "1" && Registry["1-Easy"].difficulty == "Easy"
    ensures Registry["1-Normal"].songId == "1" && Registry["1-Normal"].difficulty == "Normal"
    ensures Registry["1-Hard"].songId == "1" && Registry["1-Hard"].difficulty == "Hard"
    ensures Registry["1-Expert"].songId == "1" && Registry["1-Expert"].difficulty == "Expert"
    ensures Registry["1-Master"].songId == "1" && Registry["1-Master"].difficulty == "Master"
  {
  }

  /** The keys of song "1" at the five difficulties. */
  lemma SongOneKeys()
    ensures Key("1", "Easy") == "1-Easy" && Key("1", "Normal") == "1-Normal" && Key("1", "Hard") == "1-Hard"
    ensures Key("1", "Expert") == "1-Expert" && Key("1", "Master") == "1-Master"
  {
  }

  /** Each chart is registered under its own song id and difficulty. */
  lemma RegistryKeysMatchCharts()
    ensures forall k :: k in Registry ==> k == Key(Registry[k].songId, Registry[k].difficulty)
    ensures |Registry| == 5
  {
    RegistryEntries();
    SongOneKeys();
  }

  /** `getChart(songId, difficulty)`: the chart registered under the key, or `None`. */
  function GetChart(songId: string, difficulty: string): (r: Option<Chart>)
    ensures r.Some? <==> Key(songId, difficulty) in Registry
    ensures r.Some? ==> r.value == Registry[Key(songId, difficulty)]
  {
    var k := Key(songId, difficulty);
    if k in Registry then Some(Registry[k]) else None
  }

  /** A key of song "1" whose difficulty part has no dash splits only one way. */
  lemma SplitSongOneKey(songId: string, difficulty: string, d: string)
    requires Key(songId, difficulty) == "1-" + d
    requires forall i :: 0 <= i < |d| ==> d[i] != '-'
    ensures songId == "1" && difficulty == d
  {
    var k := Key(songId, difficulty);
    assert k == songId + "-" + difficulty;
    assert forall i :: 2 <= i < |k| ==> k[i] == d[i - 2];
    assert k[0] == '1';
    assert |songId| == 1;
    assert songId == k[..1];
    assert difficulty == k[2..];
  }

  /** Only song "1" at one of the five difficulties has one of the five registered keys. */
  lemma SongOneKeysSplit(songId: string, difficulty: string)
    ensures Key(songId, difficulty) == "1-Easy" ==> songId == "1" && difficulty == "Easy"
    ensures Key(songId, difficulty) == "1-Normal" ==> songId == "1" && difficulty == "Normal"
    ensures Key(songId, difficulty) == "1-Hard" ==> songId == "1" && difficulty == "Hard"
    ensures Key(songId, difficulty) == "1-Expert" ==> songId == "1" && difficulty == "Expert"
    ensures Key(songId, difficulty) == "1-Master" ==> songId == "1" && difficulty == "Master"
  {
    var k := Key(songId, difficulty);
    if k == "1-Easy" {
      SplitSongOneKey(songId, difficulty, "Easy");
    } else if k == "1-Normal" {
      SplitSongOneKey(songId, difficulty, "Normal");
    } else if k == "1-Hard" {
      SplitSongOneKey(songId, difficulty, "Hard");
    } else if k == "1-Expert" {
      SplitSongOneKey(songId, difficulty, "Expert");
    } else if k == "1-Master" {
      SplitSongOneKey(songId, difficulty, "Master");
    }
  }

  /**
   * A lookup succeeds exactly for the song id and difficulty a chart carries: it
   * returns that chart, and song "1" finds all five difficulties.
   */
  lemma GetChartMatches(songId: string, difficulty: string)
    ensures GetChart(songId, difficulty).Some? ==>
      GetChart(songId, difficulty).value.songId == songId && GetChart(songId, difficulty).value.difficulty == difficulty
    ensures songId == "1" && difficulty in ["Easy", "Normal", "Hard", "Expert", "Master"] ==> GetChart(songId, difficulty).Some?
  {
    RegistryEntries();
    SongOneKeys();
    SongOneKeysSplit(songId, difficulty);
  }
}

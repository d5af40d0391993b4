/** What both replays consume: bars, order sides, and the replay parameters. */
module Market {

  datatype Bar = Bar(moment: int, close: real, volume: real)

  datatype Side = Buy | Sell

  datatype Config = Config(capital: real, limitRate: real, lot: int, dMax: real)
}
